/** The neural-network visual's graph: nodes pushed layer by layer, and a
    connection from every node of a layer to every node of the next one.
    Node objects are identified by their index in the node list; geometry,
    velocities and random weights are not modelled. */
module NeuralGraph {

  const Layers: seq<nat> := [5, 8, 8, 5]

  datatype Node = Node(layer: nat, activated: bool, activationTime: int)

  /** A connection between two node indices. */
  datatype Connection = Connection(from: nat, to: nat, active: bool)

  /** Index of the first node of layer `l`: the sizes of the layers before it. */
  function Offset(sizes: seq<nat>, l: nat): nat
    requires l <= |sizes|
  {
    if l == 0 then 0 else Offset(sizes, l - 1) + sizes[l - 1]
  }

  /** Index `k` lies in layer `m`'s range of the node list. */
  predicate InLayer(sizes: seq<nat>, m: nat, k: nat) {
    m < |sizes| && Offset(sizes, m) <= k < Offset(sizes, m + 1)
  }

  /** Connection `c` runs from layer `m`'s range into layer `m + 1`'s. */
  predicate Spans(sizes: seq<nat>, m: nat, c: Connection) {
    InLayer(sizes, m, c.from) && InLayer(sizes, m + 1, c.to)
  }

  function LayerNodes(l: nat, n: nat): seq<Node> {
    seq(n, _ => Node(l, false, 0))
  }

  /** The node list after the first `l` layers have been pushed. */
  function NodesUpTo(sizes: seq<nat>, l: nat): (r: seq<Node>)
    requires l <= |sizes|
    ensures |r| == Offset(sizes, l)
  {
    if l == 0 then [] else NodesUpTo(sizes, l - 1) + LayerNodes(l - 1, sizes[l - 1])
  }

  /** The node list of the whole construction: one node per layer slot. */
  function InitialNodes(sizes: seq<nat>): (r: seq<Node>)
    ensures |r| == Offset(sizes, |sizes|)
  {
    NodesUpTo(sizes, |sizes|)
  }

  /** The connections from node `from` to the `n` nodes starting at `toStart`. */
  function Row(from: nat, toStart: nat, n: nat): seq<Connection> {
    seq(n, b requires 0 <= b < n => Connection(from, toStart + b, false))
  }

  /** The connections of the first `a` nodes of layer `l` into layer `l + 1`. */
  function Block(sizes: seq<nat>, l: nat, a: nat): seq<Connection>
    requires l + 1 < |sizes|
  {
    if a == 0 then []
    else Block(sizes, l, a - 1) + Row(Offset(sizes, l) + a - 1, Offset(sizes, l + 1), sizes[l + 1])
  }

  /** The connection list after the first `l` pairs of adjacent layers. */
  function JoinsUpTo(sizes: seq<nat>, l: nat): seq<Connection>
    requires l < |sizes|
  {
    if l == 0 then [] else JoinsUpTo(sizes, l - 1) + Block(sizes, l - 1, sizes[l - 1])
  }

  function InitialConnections(sizes: seq<nat>): seq<Connection> {
    if |sizes| == 0 then [] else JoinsUpTo(sizes, |sizes| - 1)
  }

  /** `layers.forEach(... for (i < nodeCount) nodes.push(...))`. */
  method BuildNodes(sizes: seq<nat>) returns (nodes: seq<Node>)
    ensures nodes == InitialNodes(sizes)
  {
    nodes := [];
    var l := 0;
    while l < |sizes|
      invariant 0 <= l <= |sizes|
      invariant nodes == NodesUpTo(sizes, l)
    {
      var i := 0;
      while i < sizes[l]
        invariant 0 <= i <= sizes[l]
        invariant nodes == NodesUpTo(sizes, l) + LayerNodes(l, i)
      {
        assert LayerNodes(l, i + 1) == LayerNodes(l, i) + [Node(l, false, 0)];
        nodes := nodes + [Node(l, false, 0)];
        i := i + 1;
      }
      l := l + 1;
    }
  }

  /** `nextLayerNodes.forEach(toNode => connections.push(...))` for one source node. */
  method PushRow(connections: seq<Connection>, from: nat, toStart: nat, n: nat) returns (r: seq<Connection>)
    ensures r == connections + Row(from, toStart, n)
  {
    r := connections;
    var b := 0;
    while b < n
      invariant 0 <= b <= n
      invariant r == connections + Row(from, toStart, b)
    {
      assert Row(from, toStart, b + 1) == Row(from, toStart, b) + [Connection(from, toStart + b, false)];
      r := r + [Connection(from, toStart + b, false)];
      b := b + 1;
    }
  }

  /** `currentLayerNodes.forEach(...)` for layer `l`, whose first node is at `nodeIndex`. */
  method PushBlock(connections: seq<Connection>, sizes: seq<nat>, l: nat, nodeIndex: nat) returns (r: seq<Connection>)
    requires l + 1 < |sizes| && nodeIndex == Offset(sizes, l)
    ensures r == connections + Block(sizes, l, sizes[l])
  {
    assert Offset(sizes, l + 1) == nodeIndex + sizes[l];
    r := connections;
    var a := 0;
    while a < sizes[l]
      invariant 0 <= a <= sizes[l]
      invariant r == connections + Block(sizes, l, a)
    {
      r := PushRow(r, nodeIndex + a, nodeIndex + sizes[l], sizes[l + 1]);
      a := a + 1;
    }
  }

  /** The loop over adjacent layers, advancing `nodeIndex` past each layer. */
  method BuildConnections(sizes: seq<nat>) returns (connections: seq<Connection>)
    ensures connections == InitialConnections(sizes)
  {
    connections := [];
    if |sizes| == 0 { return; }
    var nodeIndex := 0;
    var l := 0;
    while l < |sizes| - 1
      invariant 0 <= l <= |sizes| - 1
      invariant nodeIndex == Offset(sizes, l)
      invariant connections == JoinsUpTo(sizes, l)
    {
      connections := PushBlock(connections, sizes, l, nodeIndex);
      nodeIndex := nodeIndex + sizes[l];
      l := l + 1;
    }
  }

  lemma {:induction false} OffsetMonotone(sizes: seq<nat>, a: nat, b: nat)
    requires a <= b <= |sizes|
    ensures Offset(sizes, a) <= Offset(sizes, b)
    decreases b - a
  {
    if a < b { OffsetMonotone(sizes, a, b - 1); }
  }

  /** An index lies in at most one layer's range. */
  lemma LayerUnique(sizes: seq<nat>, a: nat, b: nat, k: nat)
    requires InLayer(sizes, a, k) && InLayer(sizes, b, k)
    ensures a == b
  {
    if a < b { OffsetMonotone(sizes, a + 1, b); }
    if b < a { OffsetMonotone(sizes, b + 1, a); }
  }

  /** Nodes are stored contiguously by layer: node `k` of the first `l` layers
      belongs to the layer whose index range holds `k`, and starts inactive. */
  lemma {:induction false} NodesUpToShape(sizes: seq<nat>, l: nat)
    requires l <= |sizes|
    ensures forall k :: 0 <= k < Offset(sizes, l) ==>
      && NodesUpTo(sizes, l)[k].layer < l
      && NodesUpTo(sizes, l)[k] == Node(NodesUpTo(sizes, l)[k].layer, false, 0)
      && InLayer(sizes, NodesUpTo(sizes, l)[k].layer, k)
  {
    if l > 0 {
      NodesUpToShape(sizes, l - 1);
      var prev := NodesUpTo(sizes, l - 1);
      assert NodesUpTo(sizes, l) == prev + LayerNodes(l - 1, sizes[l - 1]);
      forall k | 0 <= k < Offset(sizes, l)
        ensures && NodesUpTo(sizes, l)[k].layer < l
                && NodesUpTo(sizes, l)[k] == Node(NodesUpTo(sizes, l)[k].layer, false, 0)
                && InLayer(sizes, NodesUpTo(sizes, l)[k].layer, k)
      {
        if k < Offset(sizes, l - 1) {
          assert NodesUpTo(sizes, l)[k] == prev[k];
        } else {
          assert NodesUpTo(sizes, l)[k] == Node(l - 1, false, 0);
        }
      }
    }
  }

  lemma RowMember(from: nat, toStart: nat, n: nat, c: Connection)
    ensures c in Row(from, toStart, n) <==> !c.active && c.from == from && toStart <= c.to < toStart + n
  {
    if !c.active && c.from == from && toStart <= c.to < toStart + n {
      assert Row(from, toStart, n)[c.to - toStart] == c;
    }
  }

  lemma {:induction false} BlockMember(sizes: seq<nat>, l: nat, a: nat, c: Connection)
    requires l + 1 < |sizes|
    ensures c in Block(sizes, l, a) <==>
      && !c.active
      && Offset(sizes, l) <= c.from < Offset(sizes, l) + a
      && Offset(sizes, l + 1) <= c.to < Offset(sizes, l + 2)
  {
    if a > 0 {
      BlockMember(sizes, l, a - 1, c);
      RowMember(Offset(sizes, l) + a - 1, Offset(sizes, l + 1), sizes[l + 1], c);
    }
  }

  lemma {:induction false} JoinsMember(sizes: seq<nat>, l: nat, c: Connection)
    requires l < |sizes|
    ensures c in JoinsUpTo(sizes, l) <==>
      !c.active && exists m: nat :: m < l && Spans(sizes, m, c)
  {
    if l > 0 {
      JoinsMember(sizes, l - 1, c);
      BlockMember(sizes, l - 1, sizes[l - 1], c);
      var inBlock := c in Block(sizes, l - 1, sizes[l - 1]);
      assert inBlock <==> !c.active && Spans(sizes, l - 1, c);
      if !c.active && exists m: nat :: m < l && Spans(sizes, m, c) {
        var m: nat :| m < l && Spans(sizes, m, c);
        if m < l - 1 { assert c in JoinsUpTo(sizes, l - 1); } else { assert inBlock; }
      }
    }
  }

  /** A node index in layer `m`'s range holds a node of layer `m`. */
  lemma NodeInLayer(sizes: seq<nat>, m: nat, k: nat)
    requires InLayer(sizes, m, k)
    ensures k < |InitialNodes(sizes)| && InitialNodes(sizes)[k].layer == m
  {
    NodesUpToShape(sizes, |sizes|);
    OffsetMonotone(sizes, m + 1, |sizes|);
    LayerUnique(sizes, InitialNodes(sizes)[k].layer, m, k);
  }

  /** A connection of the construction goes from a node of some layer `m`
      to a node of layer `m + 1`. */
  lemma ConnectionGoesForward(sizes: seq<nat>, c: Connection)
    requires c in InitialConnections(sizes)
    ensures var nodes := InitialNodes(sizes);
      && !c.active && c.from < |nodes| && c.to < |nodes|
      && nodes[c.to].layer == nodes[c.from].layer + 1
  {
    JoinsMember(sizes, |sizes| - 1, c);
    var m: nat :| m < |sizes| - 1 && Spans(sizes, m, c);
    NodeInLayer(sizes, m, c.from);
    NodeInLayer(sizes, m + 1, c.to);
  }


  /** Every node is connected to every node of the next layer. */
  lemma AdjacentNodesConnected(sizes: seq<nat>, i: nat, j: nat)
    requires i < |InitialNodes(sizes)| && j < |InitialNodes(sizes)|
    requires InitialNodes(sizes)[j].layer == InitialNodes(sizes)[i].layer + 1
    ensures Connection(i, j, false) in InitialConnections(sizes)
  {
    var L := |sizes|;
    var nodes := InitialNodes(sizes);
    NodesUpToShape(sizes, L);
    var m := nodes[i].layer;
    assert InLayer(sizes, m, i) && InLayer(sizes, m + 1, j);
    assert Spans(sizes, m, Connection(i, j, false));
    assert InitialConnections(sizes) == JoinsUpTo(sizes, L - 1);
    JoinsMember(sizes, L - 1, Connection(i, j, false));
  }

  /** The construction is a full bipartite join between adjacent layers. */
  lemma FullBipartiteJoin(sizes: seq<nat>)
    ensures var nodes, conns := InitialNodes(sizes), InitialConnections(sizes);
      && (forall c :: c in conns ==>
            && !c.active && c.from < |nodes| && c.to < |nodes|
            && nodes[c.to].layer == nodes[c.from].layer + 1)
      && (forall i: nat, j: nat :: i < |nodes| && j < |nodes| && nodes[j].layer == nodes[i].layer + 1
            ==> Connection(i, j, false) in conns)
  {
    forall c | c in InitialConnections(sizes)
      ensures var nodes := InitialNodes(sizes);
        && !c.active && c.from < |nodes| && c.to < |nodes|
        && nodes[c.to].layer == nodes[c.from].layer + 1
    {
      ConnectionGoesForward(sizes, c);
    }
    forall i: nat, j: nat | i < |InitialNodes(sizes)| && j < |InitialNodes(sizes)|
      && InitialNodes(sizes)[j].layer == InitialNodes(sizes)[i].layer + 1
      ensures Connection(i, j, false) in InitialConnections(sizes)
    {
      AdjacentNodesConnected(sizes, i, j);
    }
  }

  lemma {:induction false} BlockLength(sizes: seq<nat>, l: nat, a: nat)
    requires l + 1 < |sizes|
    ensures |Block(sizes, l, a)| == a * sizes[l + 1]
  {
    if a > 0 { BlockLength(sizes, l, a - 1); }
  }

  /** For `[5, 8, 8, 5]`: 26 nodes and 5·8 + 8·8 + 8·5 = 144 connections. */
  lemma ConcreteSizes()
    ensures |InitialNodes(Layers)| == 26
    ensures |InitialConnections(Layers)| == 144
  {
    NodesUpToShape(Layers, 4);
    assert Offset(Layers, 4) == 26;
    BlockLength(Layers, 0, 5);
    BlockLength(Layers, 1, 8);
    BlockLength(Layers, 2, 8);
    assert |JoinsUpTo(Layers, 3)| == |Block(Layers, 0, 5)| + |Block(Layers, 1, 8)| + |Block(Layers, 2, 8)|;
  }
}
