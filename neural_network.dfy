/** The neural-network visual's per-frame and per-event bookkeeping: the
    activation wave, expiry of old activations, and activation by the mouse.
    `Date.now()` is the `now` parameter; the distance test against the mouse
    is the `near` parameter. */
module NeuralNetwork {
  import opened NeuralGraph

  /** `waveTime` counts thousandths: each frame adds 0.015. */
  const WaveStep: nat := 15
  const ActivationLifetime: int := 1500

  /** `Math.floor(waveTime) % layers.length`. */
  function CurrentLayer(waveTime: nat): (l: nat)
    ensures l < |Layers|
  {
    (waveTime / 1000) % |Layers|
  }

  /** The wave never skips a layer: one frame later it is on the same layer
      or on the next one, cyclically. */
  lemma WaveAdvancesOneLayerAtMost(w: nat)
    ensures CurrentLayer(w + WaveStep) == CurrentLayer(w)
         || CurrentLayer(w + WaveStep) == (CurrentLayer(w) + 1) % |Layers|
  {
    var q := w / 1000;
    assert q * 1000 <= w < q * 1000 + 1000;
    assert (w + WaveStep) / 1000 == q || (w + WaveStep) / 1000 == q + 1;
  }

  /** Node `k` is the target of a connection from node `i` (other than `i`) among the first `upTo` connections. */
  ghost predicate SuccessorWithin(conns: seq<Connection>, i: nat, k: nat, upTo: nat) {
    exists m :: 0 <= m < upTo && m < |conns| && conns[m].from == i && conns[m].to == k && k != i
  }

  lemma SuccessorStep(conns: seq<Connection>, i: nat, k: nat, j: nat)
    requires j < |conns|
    ensures SuccessorWithin(conns, i, k, j + 1) <==>
      SuccessorWithin(conns, i, k, j) || (conns[j].from == i && conns[j].to == k && k != i)
  {
    if conns[j].from == i && conns[j].to == k && k != i {
      assert SuccessorWithin(conns, i, k, j + 1);
    }
    if SuccessorWithin(conns, i, k, j + 1) && !SuccessorWithin(conns, i, k, j) {
      var m :| 0 <= m < j + 1 && m < |conns| && conns[m].from == i && conns[m].to == k && k != i;
      assert m == j;
    }
  }

  ghost predicate IsSuccessor(conns: seq<Connection>, i: nat, k: nat) {
    SuccessorWithin(conns, i, k, |conns|)
  }

  /** Successors depend only on the connections' endpoints, not on their active flags. */
  lemma SameEndsSameSuccessors(c1: seq<Connection>, c0: seq<Connection>, i: nat)
    requires |c1| == |c0|
    requires forall m :: 0 <= m < |c0| ==> c1[m].from == c0[m].from && c1[m].to == c0[m].to
    ensures forall k :: IsSuccessor(c1, i, k) == IsSuccessor(c0, i, k)
  {
    forall k ensures IsSuccessor(c1, i, k) == IsSuccessor(c0, i, k) {
      if IsSuccessor(c1, i, k) {
        var m :| 0 <= m < |c1| && c1[m].from == i && c1[m].to == k && k != i;
        assert c0[m].from == i && c0[m].to == k;
      }
      if IsSuccessor(c0, i, k) {
        var m :| 0 <= m < |c0| && c0[m].from == i && c0[m].to == k && k != i;
        assert c1[m].from == i && c1[m].to == k;
      }
    }
  }

  /** Node `k` is reached by the mouse pass over the first `upTo` nodes:
      it is near itself, or it is a successor of a near node. */
  ghost predicate ReachedWithin(near: seq<bool>, conns: seq<Connection>, k: nat, upTo: nat) {
    (k < upTo && k < |near| && near[k])
    || exists n :: 0 <= n < upTo && n < |near| && near[n] && IsSuccessor(conns, n, k)
  }

  ghost predicate MouseReached(near: seq<bool>, conns: seq<Connection>, k: nat) {
    ReachedWithin(near, conns, k, |near|)
  }

  lemma ReachedStep(near: seq<bool>, conns: seq<Connection>, k: nat, i: nat)
    requires i < |near|
    ensures ReachedWithin(near, conns, k, i + 1) <==>
      ReachedWithin(near, conns, k, i) || (near[i] && (k == i || IsSuccessor(conns, i, k)))
  {
    if ReachedWithin(near, conns, k, i + 1) && !(k < i + 1 && near[k]) {
      var n :| 0 <= n < i + 1 && n < |near| && near[n] && IsSuccessor(conns, n, k);
    }
  }

  function Activate(n: Node, now: int): Node {
    n.(activated := true, activationTime := now)
  }

  /** The nodes once a wave over `layer` has passed at `now`. */
  function WaveNodes(nodes: seq<Node>, layer: nat, now: int): seq<Node> {
    seq(|nodes|, k requires 0 <= k < |nodes| => if nodes[k].layer == layer then Activate(nodes[k], now) else nodes[k])
  }

  /** The connections once a wave over `layer` has passed: those leaving that layer are lit. */
  function WaveConnections(nodes: seq<Node>, conns: seq<Connection>, layer: nat): seq<Connection> {
    seq(|conns|, m requires 0 <= m < |conns| =>
      if conns[m].from < |nodes| && nodes[conns[m].from].layer == layer then conns[m].(active := true) else conns[m])
  }

  /** The nodes once those lit for longer than the lifetime have gone out. */
  function ExpiredNodes(nodes: seq<Node>, now: int): seq<Node> {
    seq(|nodes|, k requires 0 <= k < |nodes| =>
      if nodes[k].activated && now - nodes[k].activationTime > ActivationLifetime then nodes[k].(activated := false) else nodes[k])
  }

  /** Neither endpoint of `c` is lit. */
  predicate Unlit(nodes: seq<Node>, c: Connection) {
    c.from < |nodes| && c.to < |nodes| && !nodes[c.from].activated && !nodes[c.to].activated
  }

  /** The connections once those between two unlit nodes have gone out. */
  function PrunedConnections(nodes: seq<Node>, conns: seq<Connection>): seq<Connection> {
    seq(|conns|, m requires 0 <= m < |conns| => if conns[m].active && Unlit(nodes, conns[m]) then conns[m].(active := false) else conns[m])
  }

  /** A frame leaves the wave's layer lit at `now`: the expiry pass cannot
      put out a node lit in the same frame. */
  lemma FrameLightsWaveLayer(nodes: seq<Node>, layer: nat, now: int)
    ensures |ExpiredNodes(WaveNodes(nodes, layer, now), now)| == |nodes|
    ensures forall k :: 0 <= k < |nodes| && nodes[k].layer == layer ==>
      ExpiredNodes(WaveNodes(nodes, layer, now), now)[k] == Activate(nodes[k], now)
  {
  }

  /** A node off the wave's layer goes out exactly when its lifetime is over, whatever the frame. */
  lemma FrameExpiresOtherLayers(nodes: seq<Node>, layer: nat, now: int, k: nat)
    requires k < |nodes| && nodes[k].layer != layer
    ensures |ExpiredNodes(WaveNodes(nodes, layer, now), now)| == |nodes|
    ensures !ExpiredNodes(WaveNodes(nodes, layer, now), now)[k].activated <==>
      !nodes[k].activated || now - nodes[k].activationTime > ActivationLifetime
  {
  }

  /** After pruning, every lit connection has a lit endpoint, and pruning
      never moves a connection or lights one. */
  lemma PrunedKeepsLitEndpoint(nodes: seq<Node>, conns: seq<Connection>)
    requires forall m :: 0 <= m < |conns| ==> conns[m].from < |nodes| && conns[m].to < |nodes|
    ensures |PrunedConnections(nodes, conns)| == |conns|
    ensures forall m :: 0 <= m < |conns| ==>
      PrunedConnections(nodes, conns)[m].from == conns[m].from && PrunedConnections(nodes, conns)[m].to == conns[m].to
    ensures forall m :: 0 <= m < |conns| && PrunedConnections(nodes, conns)[m].active ==>
      conns[m].active && (nodes[conns[m].from].activated || nodes[conns[m].to].activated)
  {
  }

  class Network {
    var nodes: seq<Node>
    var connections: seq<Connection>
    var waveTime: nat
    const isActive: bool        // the in-view flag captured by this effect run
    var frameScheduled: bool
    var resizeListening: bool
    var mouseListening: bool

    ghost predicate Valid()
      reads this
    {
      forall m :: 0 <= m < |connections| ==> connections[m].from < |nodes| && connections[m].to < |nodes|
    }

    /** One run of the effect: builds the graph, adds both listeners and starts the frame loop. */
    constructor (isActive: bool)
      ensures Valid()
      ensures nodes == InitialNodes(Layers) && connections == InitialConnections(Layers)
      ensures waveTime == 0 && this.isActive == isActive
      ensures frameScheduled && resizeListening && mouseListening
    {
      var ns := BuildNodes(Layers);
      var cs := BuildConnections(Layers);
      FullBipartiteJoin(Layers);
      nodes, connections, waveTime := ns, cs, 0;
      this.isActive := isActive;
      frameScheduled, resizeListening, mouseListening := true, true, true;
      assert forall m :: 0 <= m < |cs| ==> cs[m] in cs;
    }

    /** `connections.forEach(c => { if (c.from === node) c.active = true })`. */
    method ActivateOutgoing(i: nat)
      modifies this`connections
      ensures |connections| == |old(connections)|
      ensures forall m :: 0 <= m < |connections| ==>
        connections[m] == if old(connections)[m].from == i then old(connections)[m].(active := true) else old(connections)[m]
    {
      ghost var c0 := connections;
      var j := 0;
      while j < |connections|
        invariant 0 <= j <= |connections| == |c0|
        invariant forall m :: 0 <= m < |connections| ==>
          connections[m] == if m < j && c0[m].from == i then c0[m].(active := true) else c0[m]
      {
        if connections[j].from == i {
          connections := connections[j := connections[j].(active := true)];
        }
        j := j + 1;
      }
    }

    /** `activateWave`: activates the current layer's nodes and their outgoing connections. */
    method ActivateWave(now: int)
      requires Valid()
      modifies this`nodes, this`connections, this`waveTime
      ensures Valid()
      ensures waveTime == old(waveTime) + WaveStep
      ensures |nodes| == |old(nodes)| && |connections| == |old(connections)|
      ensures nodes == WaveNodes(old(nodes), CurrentLayer(old(waveTime)), now)
      ensures connections == WaveConnections(old(nodes), old(connections), CurrentLayer(old(waveTime)))
    {
      var cur := CurrentLayer(waveTime);
      ghost var n0, c0 := nodes, connections;
      var i := 0;
      while i < |nodes|
        invariant 0 <= i <= |nodes| == |n0|
        invariant |connections| == |c0| && waveTime == old(waveTime)
        invariant forall m :: 0 <= m < |c0| ==> c0[m].from < |n0| && c0[m].to < |n0|
        invariant forall k :: 0 <= k < |nodes| ==>
          nodes[k] == if k < i && n0[k].layer == cur then Activate(n0[k], now) else n0[k]
        invariant forall m :: 0 <= m < |connections| ==>
          connections[m] == if c0[m].from < i && n0[c0[m].from].layer == cur then c0[m].(active := true) else c0[m]
      {
        if nodes[i].layer == cur {
          nodes := nodes[i := Activate(nodes[i], now)];
          ActivateOutgoing(i);
        }
        i := i + 1;
      }
      assert nodes == WaveNodes(n0, cur, now);
      assert connections == WaveConnections(n0, c0, cur);
      waveTime := waveTime + WaveStep;
    }

    /** The two deactivation passes of a frame. */
    method ExpireActivations(now: int)
      requires Valid()
      modifies this`nodes, this`connections
      ensures Valid()
      ensures |nodes| == |old(nodes)| && |connections| == |old(connections)|
      ensures nodes == ExpiredNodes(old(nodes), now)
      ensures connections == PrunedConnections(nodes, old(connections))
    {
      ghost var n0, c0 := nodes, connections;
      var i := 0;
      while i < |nodes|
        invariant 0 <= i <= |nodes| == |n0| && connections == c0
        invariant forall k :: 0 <= k < |nodes| ==>
          nodes[k] == if k < i && n0[k].activated && now - n0[k].activationTime > ActivationLifetime
                      then n0[k].(activated := false) else n0[k]
      {
        if nodes[i].activated && now - nodes[i].activationTime > ActivationLifetime {
          nodes := nodes[i := nodes[i].(activated := false)];
        }
        i := i + 1;
      }
      ghost var n1 := nodes;
      var j := 0;
      while j < |connections|
        invariant 0 <= j <= |connections| == |c0| && nodes == n1
        invariant forall m :: 0 <= m < |c0| ==> connections[m].from == c0[m].from && connections[m].to == c0[m].to
        invariant forall m :: 0 <= m < |connections| ==>
          connections[m] == if m < j && c0[m].active && !nodes[c0[m].from].activated && !nodes[c0[m].to].activated
                            then c0[m].(active := false) else c0[m]
      {
        var c := connections[j];
        if c.active && !nodes[c.from].activated && !nodes[c.to].activated {
          connections := connections[j := c.(active := false)];
        }
        j := j + 1;
      }
      assert nodes == ExpiredNodes(n0, now);
      assert connections == PrunedConnections(nodes, c0);
    }

    /** One animation frame. Without the in-view flag it only reschedules itself. */
    method Frame(now: int)
      requires Valid()
      modifies this`nodes, this`connections, this`waveTime
      ensures Valid()
      ensures |nodes| == |old(nodes)| && |connections| == |old(connections)|
      ensures !(frameScheduled && isActive) ==> nodes == old(nodes) && connections == old(connections) && waveTime == old(waveTime)
      ensures frameScheduled && isActive ==> waveTime == old(waveTime) + WaveStep
      ensures frameScheduled && isActive ==>
        nodes == ExpiredNodes(WaveNodes(old(nodes), CurrentLayer(old(waveTime)), now), now)
      ensures frameScheduled && isActive ==>
        connections == PrunedConnections(nodes, WaveConnections(old(nodes), old(connections), CurrentLayer(old(waveTime))))
      ensures frameScheduled && isActive ==> forall k :: 0 <= k < |nodes| && old(nodes)[k].layer == CurrentLayer(old(waveTime)) ==>
        nodes[k] == Activate(old(nodes)[k], now)
      ensures forall m :: 0 <= m < |connections| && connections[m].active && frameScheduled && isActive ==>
        nodes[connections[m].from].activated || nodes[connections[m].to].activated
    {
      if frameScheduled && isActive {
        ghost var n0 := nodes;
        ActivateWave(now);
        ghost var c1 := connections;
        ExpireActivations(now);
        FrameLightsWaveLayer(n0, CurrentLayer(old(waveTime)), now);
        PrunedKeepsLitEndpoint(nodes, c1);
      }
    }

    /** The body of the `connections.forEach` for one near node `i`. */
    method TouchNode(i: nat, now: int)
      requires Valid()
      modifies this`nodes, this`connections
      ensures Valid()
      ensures |nodes| == |old(nodes)| && |connections| == |old(connections)|
      ensures forall m :: 0 <= m < |connections| ==>
        connections[m] == if old(connections)[m].from == i || old(connections)[m].to == i
                          then old(connections)[m].(active := true) else old(connections)[m]
      ensures forall k :: 0 <= k < |nodes| ==>
        nodes[k] == if IsSuccessor(old(connections), i, k) then Activate(old(nodes)[k], now) else old(nodes)[k]
    {
      ghost var n0, c0 := nodes, connections;
      var j := 0;
      while j < |connections|
        invariant 0 <= j <= |connections| == |c0| && |nodes| == |n0|
        invariant forall m :: 0 <= m < |c0| ==> c0[m].from < |n0| && c0[m].to < |n0|
        invariant forall m :: 0 <= m < |connections| ==>
          connections[m] == if m < j && (c0[m].from == i || c0[m].to == i) then c0[m].(active := true) else c0[m]
        invariant forall k :: 0 <= k < |nodes| ==>
          nodes[k] == if SuccessorWithin(c0, i, k, j) then Activate(n0[k], now) else n0[k]
      {
        var c := connections[j];
        assert c.from == c0[j].from && c.to == c0[j].to;
        if c.from == i || c.to == i {
          connections := connections[j := c.(active := true)];
          if c.to != i {
            nodes := nodes[c.to := Activate(nodes[c.to], now)];
          }
        }
        forall k | 0 <= k < |nodes|
          ensures nodes[k] == if SuccessorWithin(c0, i, k, j + 1) then Activate(n0[k], now) else n0[k]
        {
          SuccessorStep(c0, i, k, j);
        }
        j := j + 1;
      }
    }

    /** `handleMouseMove`: each near node, its connections and its successors become active. */
    method MouseMove(near: seq<bool>, now: int)
      requires Valid() && |near| == |nodes|
      modifies this`nodes, this`connections
      ensures Valid()
      ensures |nodes| == |old(nodes)| && |connections| == |old(connections)|
      ensures !mouseListening ==> nodes == old(nodes) && connections == old(connections)
      ensures mouseListening ==> forall k :: 0 <= k < |nodes| ==>
        nodes[k] == if MouseReached(near, old(connections), k) then Activate(old(nodes)[k], now) else old(nodes)[k]
      ensures mouseListening ==> forall m :: 0 <= m < |connections| ==>
        connections[m] == if near[old(connections)[m].from] || near[old(connections)[m].to]
                          then old(connections)[m].(active := true) else old(connections)[m]
    {
      if !mouseListening { return; }
      ghost var n0, c0 := nodes, connections;
      var i := 0;
      while i < |nodes|
        invariant 0 <= i <= |nodes| == |n0| == |near|
        invariant |connections| == |c0| && Valid()
        invariant forall m :: 0 <= m < |c0| ==> c0[m].from < |n0| && c0[m].to < |n0|
        invariant forall m :: 0 <= m < |c0| ==> connections[m].from == c0[m].from && connections[m].to == c0[m].to
        invariant forall k :: 0 <= k < |nodes| ==>
          nodes[k] == if ReachedWithin(near, c0, k, i) then Activate(n0[k], now) else n0[k]
        invariant forall m :: 0 <= m < |connections| ==>
          connections[m] == if (c0[m].from < i && near[c0[m].from]) || (c0[m].to < i && near[c0[m].to])
                            then c0[m].(active := true) else c0[m]
      {
        if near[i] {
          nodes := nodes[i := Activate(nodes[i], now)];
          ghost var c1 := connections;
          TouchNode(i, now);
          SameEndsSameSuccessors(c1, c0, i);
        }
        forall k | 0 <= k < |nodes|
          ensures nodes[k] == if ReachedWithin(near, c0, k, i + 1) then Activate(n0[k], now) else n0[k]
        {
          ReachedStep(near, c0, k, i);
        }
        i := i + 1;
      }
    }

    /** The effect cleanup: cancels the frame and removes both listeners. */
    method Cleanup()
      modifies this`frameScheduled, this`resizeListening, this`mouseListening
      ensures !frameScheduled && !resizeListening && !mouseListening
    {
      frameScheduled, resizeListening, mouseListening := false, false, false;
    }
  }

  /** On the constructed graph the mouse never activates a predecessor: a
      node in the layer before the only near node is left as it was. */
  lemma MouseSparesPredecessors(near: seq<bool>, i: nat, k: nat)
    requires |near| == |InitialNodes(Layers)| && i < |near| && k < |near|
    requires forall n :: 0 <= n < |near| ==> (near[n] <==> n == i)
    requires InitialNodes(Layers)[k].layer + 1 == InitialNodes(Layers)[i].layer
    ensures !MouseReached(near, InitialConnections(Layers), k)
  {
    var nodes, conns := InitialNodes(Layers), InitialConnections(Layers);
    if MouseReached(near, conns, k) {
      var n :| 0 <= n < |near| && near[n] && IsSuccessor(conns, n, k);
      var m :| 0 <= m < |conns| && conns[m].from == n && conns[m].to == k && k != n;
      ConnectionGoesForward(Layers, conns[m]);
      assert false;
    }
  }
}
