/** Finding the box or the port under a point of a laid-out graph. */
module HitTest {
  import opened Prelude
  import opened Records
  import opened Layout

  // ------------------------------------------------------------ ports of a box

  ghost predicate DistinctIds(ports: seq<PwPort>) {
    forall i, j :: 0 <= i < j < |ports| ==> ports[i].id != ports[j].id
  }

  lemma {:induction false} NodePorts(ports: seq<PwPort>, nodeId: nat)
    ensures forall q :: q in PortsForNode(ports, nodeId) <==> q in ports && q.nodeId == nodeId
    ensures DistinctIds(ports) ==> DistinctIds(PortsForNode(ports, nodeId))
  {
    if ports != [] {
      NodePorts(ports[1..], nodeId);
      assert ports == [ports[0]] + ports[1..];
      if DistinctIds(ports) {
        forall q | q in PortsForNode(ports[1..], nodeId) ensures q.id != ports[0].id {
          var i :| 0 <= i < |ports[1..]| && ports[1..][i] == q;
          assert q == ports[i + 1];
        }
      }
    }
  }

  lemma {:induction false} FacingPorts(ports: seq<PwPort>, d: Direction)
    ensures forall q :: q in Facing(ports, d) <==> q in ports && q.direction == d
    ensures DistinctIds(ports) ==> DistinctIds(Facing(ports, d))
  {
    if ports != [] {
      FacingPorts(ports[1..], d);
      assert ports == [ports[0]] + ports[1..];
      if DistinctIds(ports) {
        forall q | q in Facing(ports[1..], d) ensures q.id != ports[0].id {
          var i :| 0 <= i < |ports[1..]| && ports[1..][i] == q;
          assert q == ports[i + 1];
        }
      }
    }
  }

  lemma {:induction false} IndexOfPort(ports: seq<PwPort>, id: nat)
    ensures IndexOf(ports, id).None? <==> forall q :: q in ports ==> q.id != id
    ensures IndexOf(ports, id).Some? ==> IndexOf(ports, id).value < |ports| && ports[IndexOf(ports, id).value].id == id
  {
    if ports != [] {
      IndexOfPort(ports[1..], id);
      assert ports == [ports[0]] + ports[1..];
    }
  }

  function Side(b: NodeBox, output: bool): seq<PwPort> {
    if output then b.outputs else b.inputs
  }

  /** Position in a distinctly numbered list is found by id. */
  lemma OwnIndex(list: seq<PwPort>, i: nat)
    requires DistinctIds(list) && i < |list|
    ensures IndexOf(list, list[i].id) == Some(i)
  {
    IndexOfPort(list, list[i].id);
  }

  /** No id is on both sides of a box. */
  lemma SidesDisjoint(mine: seq<PwPort>, q: PwPort)
    requires DistinctIds(mine) && q in Facing(mine, Output)
    ensures IndexOf(Facing(mine, Input), q.id) == None
  {
    FacingPorts(mine, Input);
    FacingPorts(mine, Output);
    IndexOfPort(Facing(mine, Input), q.id);
    forall other | other in Facing(mine, Input) ensures other.id != q.id {
      var j :| 0 <= j < |mine| && mine[j] == other;
      var k :| 0 <= k < |mine| && mine[k] == q;
    }
  }

  /** In a well-placed box over distinctly numbered ports, a port's id finds its own row and side. */
  lemma CenterOfPort(b: NodeBox, ports: seq<PwPort>, col: nat, output: bool, i: nat)
    requires WellPlaced(b, ports, col) && DistinctIds(ports) && i < |Side(b, output)|
    ensures PortCenter(b, Side(b, output)[i].id) == Some(CenterAt(b, output, i))
  {
    var mine := PortsForNode(ports, b.node.id);
    NodePorts(ports, b.node.id);
    FacingPorts(mine, if output then Output else Input);
    OwnIndex(Side(b, output), i);
    if output { SidesDisjoint(mine, b.outputs[i]); }
  }

  /** The visible ports are exactly the rows of the boxes, each on the side its direction says. */
  lemma RowsArePorts(b: NodeBox, ports: seq<PwPort>, col: nat, q: PwPort)
    requires WellPlaced(b, ports, col)
    ensures q in b.inputs <==> q in ports && q.nodeId == b.node.id && q.direction == Input
    ensures q in b.outputs <==> q in ports && q.nodeId == b.node.id && q.direction == Output
  {
    NodePorts(ports, b.node.id);
    FacingPorts(PortsForNode(ports, b.node.id), Input);
    FacingPorts(PortsForNode(ports, b.node.id), Output);
  }

  // --------------------------------------------------------------------- discs

  function SquaredDistance(a: Offset, b: Offset): real {
    (a.x - b.x) * (a.x - b.x) + (a.y - b.y) * (a.y - b.y)
  }

  /** `(c - p).distance <= r`, squared. */
  predicate InDisc(p: Offset, c: Offset) {
    SquaredDistance(c, p) <= HIT_RADIUS * HIT_RADIUS
  }

  lemma WithinRadius(d: real, rest: real)
    requires d * d + rest * rest <= 64.0
    ensures -8.0 <= d <= 8.0
  {
    assert rest * rest >= 0.0;
    assert d > 8.0 ==> d * d > 8.0 * 8.0;
    assert d < -8.0 ==> (-d) * (-d) > 8.0 * 8.0;
  }

  /** A point in a disc is within the radius in each coordinate. */
  lemma DiscBounds(p: Offset, c: Offset)
    requires InDisc(p, c)
    ensures -8.0 <= c.x - p.x <= 8.0 && -8.0 <= c.y - p.y <= 8.0
  {
    WithinRadius(c.x - p.x, c.y - p.y);
    WithinRadius(c.y - p.y, c.x - p.x);
  }

  /** A port's centre lies on the left or right edge of its box, inside its height. */
  lemma CenterOnEdge(b: NodeBox, ports: seq<PwPort>, col: nat, output: bool, i: nat)
    requires WellPlaced(b, ports, col) && i < |Side(b, output)|
    ensures CenterAt(b, output, i).x == (if output then Right(b) else Left(b))
    ensures Top(b) + HEADER_H < CenterAt(b, output, i).y < Bottom(b) - PAD_BOT
  {
    var rows := if |b.inputs| >= |b.outputs| then |b.inputs| else |b.outputs|;
    assert i as real + 1.0 <= rows as real;
  }

  /** Centres of rows on one side are whole row heights apart. */
  lemma RowsApart(b: NodeBox, output: bool, other: bool, i: nat, j: nat)
    ensures i < j ==> CenterAt(b, output, i).y + PORT_ROW_H <= CenterAt(b, other, j).y
  {
    assert i < j ==> i as real + 1.0 <= j as real;
  }

  ghost predicate Hits(m: map<nat, NodeBox>, k: nat, output: bool, i: nat, p: Offset) {
    k in m && i < |Side(m[k], output)| && InDisc(p, CenterAt(m[k], output, i))
  }

  /** The discs of distinct ports never meet: a point hits at most one. */
  lemma HitIsUnique(m: map<nat, NodeBox>, shown: seq<PwNode>, ports: seq<PwPort>, p: Offset,
                    k: nat, output: bool, i: nat, l: nat, other: bool, j: nat)
    requires SoundLayout(m, shown, ports)
    requires Hits(m, k, output, i, p) && Hits(m, l, other, j, p)
    ensures k == l && output == other && i == j
  {
    DiscBounds(p, CenterAt(m[k], output, i));
    DiscBounds(p, CenterAt(m[l], other, j));
    CenterOnEdge(m[k], ports, ColumnOf(m[k].node), output, i);
    CenterOnEdge(m[l], ports, ColumnOf(m[l].node), other, j);
    RowsApart(m[k], output, other, i, j);
    RowsApart(m[k], other, output, j, i);
    assert k != l ==> Apart(m[k], m[l]);
  }

  // ------------------------------------------------------------------- methods

  datatype Hit = Hit(box: NodeBox, port: PwPort, isOutput: bool)

  /** One side of one box, by row. */
  method SideAt(box: NodeBox, output: bool, p: Offset, ghost ports: seq<PwPort>, ghost col: nat)
    returns (i: Option<nat>)
    requires WellPlaced(box, ports, col) && DistinctIds(ports)
    ensures i.Some? ==> i.value < |Side(box, output)| && InDisc(p, CenterAt(box, output, i.value))
    ensures i.None? ==> forall j :: 0 <= j < |Side(box, output)| ==> !InDisc(p, CenterAt(box, output, j))
  {
    var list := if output then box.outputs else box.inputs;
    for n := 0 to |list|
      invariant forall j :: 0 <= j < n ==> !InDisc(p, CenterAt(box, output, j))
    {
      CenterOfPort(box, ports, col, output, n);
      var c := PortCenter(box, list[n].id);
      if c.Some? && InDisc(p, c.value) { return Some(n); }
    }
    return None;
  }

  /**
    `portAt`: a port is returned exactly when the point lies in its disc, and
    then it is that port, on that box and side; the order in which the map is
    walked does not matter.
   */
  method PortAt(m: map<nat, NodeBox>, p: Offset, ghost shown: seq<PwNode>, ghost ports: seq<PwPort>)
    returns (r: Option<Hit>)
    requires SoundLayout(m, shown, ports) && DistinctIds(ports)
    ensures r.None? ==> forall k, output, i :: !Hits(m, k, output, i, p)
    ensures r.Some? ==> exists k, i: nat :: (
                          Hits(m, k, r.value.isOutput, i, p)
                          && r.value.box == m[k] && r.value.port == Side(m[k], r.value.isOutput)[i])
  {
    var left := m.Keys;
    while left != {}
      invariant left <= m.Keys
      invariant forall k, output, i :: Hits(m, k, output, i, p) ==> k in left
      decreases left
    {
      var k :| k in left;
      left := left - {k};
      var inp := SideAt(m[k], false, p, ports, ColumnOf(m[k].node));
      if inp.Some? {
        assert Hits(m, k, false, inp.value, p);
        return Some(Hit(m[k], m[k].inputs[inp.value], false));
      }
      var out := SideAt(m[k], true, p, ports, ColumnOf(m[k].node));
      if out.Some? {
        assert Hits(m, k, true, out.value, p);
        return Some(Hit(m[k], m[k].outputs[out.value], true));
      }
      forall output, i: nat ensures !Hits(m, k, output, i, p) {
      }
    }
    return None;
  }

  predicate InRect(b: NodeBox, p: Offset) {
    Left(b) <= p.x < Right(b) && Top(b) <= p.y < Bottom(b)
  }

  /** This box contains the point and no other does. */
  ghost predicate OnlyBoxAt(m: map<nat, NodeBox>, k: nat, p: Offset) {
    k in m && InRect(m[k], p) && forall l :: l in m && InRect(m[l], p) ==> l == k
  }

  /** `nodeAt`: the one box that contains the point, if any. */
  method NodeAt(m: map<nat, NodeBox>, p: Offset, ghost shown: seq<PwNode>, ghost ports: seq<PwPort>)
    returns (r: Option<NodeBox>)
    requires SoundLayout(m, shown, ports)
    ensures r.None? ==> forall k :: k in m ==> !InRect(m[k], p)
    ensures r.Some? ==> exists k :: k in m && m[k] == r.value && OnlyBoxAt(m, k, p)
  {
    var left := m.Keys;
    while left != {}
      invariant left <= m.Keys
      invariant forall k :: k in m && k !in left ==> !InRect(m[k], p)
      decreases left
    {
      var k :| k in left;
      if InRect(m[k], p) {
        forall l | l in m && InRect(m[l], p) ensures l == k {
          assert l != k ==> Apart(m[k], m[l]);
        }
        return Some(m[k]);
      }
      left := left - {k};
    }
    return None;
  }

  /** The point is in row i of the port's side of its node's box, which holds that port, and in no other disc. */
  ghost predicate OnlyHit(m: map<nat, NodeBox>, q: PwPort, i: nat, p: Offset) {
    && Hits(m, q.nodeId, q.direction == Output, i, p)
    && Side(m[q.nodeId], q.direction == Output)[i] == q
    && forall k, output, j :: Hits(m, k, output, j, p)
         ==> k == q.nodeId && output == (q.direction == Output) && j == i
  }

  /**
    Hit testing inverts placement: the centre of every visible port lies in
    that port's disc and in no other.
   */
  lemma CenterHitsItself(m: map<nat, NodeBox>, shown: seq<PwNode>, ports: seq<PwPort>, q: PwPort)
    requires SoundLayout(m, shown, ports) && DistinctIds(ports)
    requires q in ports && q.nodeId in m
    ensures var c := PortCenter(m[q.nodeId], q.id);
            && c.Some?
            && exists i: nat :: OnlyHit(m, q, i, c.value)
  {
    var i := RowOf(m, shown, ports, q);
    var k, output := q.nodeId, q.direction == Output;
    CenterOfPort(m[k], ports, ColumnOf(m[k].node), output, i);
    CenterOnlyHit(m, shown, ports, q, i);
  }

  /** The row of a visible port. */
  lemma RowOf(m: map<nat, NodeBox>, shown: seq<PwNode>, ports: seq<PwPort>, q: PwPort) returns (i: nat)
    requires SoundLayout(m, shown, ports) && q in ports && q.nodeId in m
    ensures i < |Side(m[q.nodeId], q.direction == Output)| && Side(m[q.nodeId], q.direction == Output)[i] == q
  {
    RowsArePorts(m[q.nodeId], ports, ColumnOf(m[q.nodeId].node), q);
    i :| 0 <= i < |Side(m[q.nodeId], q.direction == Output)| && Side(m[q.nodeId], q.direction == Output)[i] == q;
  }

  lemma OwnDisc(c: Offset)
    ensures InDisc(c, c)
  {
  }

  lemma CenterOnlyHit(m: map<nat, NodeBox>, shown: seq<PwNode>, ports: seq<PwPort>, q: PwPort, i: nat)
    requires SoundLayout(m, shown, ports) && q.nodeId in m
    requires i < |Side(m[q.nodeId], q.direction == Output)| && Side(m[q.nodeId], q.direction == Output)[i] == q
    ensures OnlyHit(m, q, i, CenterAt(m[q.nodeId], q.direction == Output, i))
  {
    var k, output := q.nodeId, q.direction == Output;
    var c := CenterAt(m[k], output, i);
    OwnDisc(c);
    assert Hits(m, k, output, i, c);
    forall l, other, j | Hits(m, l, other, j, c)
      ensures l == k && other == output && j == i
    {
      HitIsUnique(m, shown, ports, c, l, other, j, k, output, i);
    }
  }
}
