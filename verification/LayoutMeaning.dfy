/** What the layout looks like: who is shown, in which column, and the figures of boxes, gaps, rows and discs. */
module LayoutMeaning {
  import opened Records
  import opened Layout
  import opened HitTest

  // ---------------------------------------------------------------------- text

  predicate OccursAt(part: string, s: string, i: nat) {
    i + |part| <= |s| && s[i..i + |part|] == part
  }

  ghost predicate Occurs(part: string, s: string) {
    exists i: nat :: OccursAt(part, s, i)
  }

  lemma ShiftedOccurrence(part: string, s: string, i: nat)
    requires s != ""
    ensures OccursAt(part, s[1..], i) <==> OccursAt(part, s, i + 1)
  {
    if i + 1 + |part| <= |s| { assert s[1..][i..i + |part|] == s[i + 1..i + 1 + |part|]; }
  }

  lemma OccursLater(part: string, s: string)
    requires s != ""
    ensures Occurs(part, s) <==> OccursAt(part, s, 0) || Occurs(part, s[1..])
  {
    if Occurs(part, s[1..]) {
      var i: nat :| OccursAt(part, s[1..], i);
      ShiftedOccurrence(part, s, i);
    }
    if Occurs(part, s) {
      var i: nat :| OccursAt(part, s, i);
      if i > 0 { ShiftedOccurrence(part, s, i - 1); }
    }
  }

  lemma {:induction false} ContainsExactly(s: string, part: string)
    ensures Contains(s, part) <==> Occurs(part, s)
  {
    assert part <= s <==> OccursAt(part, s, 0);
    if s == "" {
      assert Occurs(part, s) ==> part == "";
    } else {
      ContainsExactly(s[1..], part);
      OccursLater(part, s);
    }
  }

  /** Lower-casing changes the capital letters A to Z, each to the small one, and nothing else. */
  lemma LowerExactly(s: string, i: nat)
    requires i < |s|
    ensures |Lower(s)| == |s|
    ensures 'A' <= s[i] <= 'Z' ==> Lower(s)[i] - 'a' == s[i] - 'A'
    ensures !('A' <= s[i] <= 'Z') ==> Lower(s)[i] == s[i]
  {
    assert Lower(s)[i] == LowerChar(s[i]);
  }

  /** The names first differ at i, and a has the lower letter there or ends there. */
  predicate FirstLower(a: string, b: string, i: nat) {
    i <= |a| && i < |b| && a[..i] == b[..i] && (i == |a| || a[i] < b[i])
  }

  lemma FirstLowerTail(a: string, b: string, i: nat)
    requires a != "" && b != "" && a[0] == b[0]
    ensures FirstLower(a, b, i + 1) <==> FirstLower(a[1..], b[1..], i)
  {
    if i < |a| && i < |b| {
      assert a[..i + 1] == [a[0]] + a[1..][..i] && b[..i + 1] == [b[0]] + b[1..][..i];
    }
  }

  lemma SameStart(a: string, b: string, i: nat)
    requires 0 < i <= |a| && i <= |b| && a[..i] == b[..i]
    ensures a[0] == b[0]
  {
    assert a[..i][0] == b[..i][0];
  }

  /** The order of names: alike, or lower at the first letter that differs, a name coming before all that extend it. */
  lemma {:induction false} NotAboveExactly(a: string, b: string)
    ensures NotAbove(a, b) <==> a == b || exists i: nat :: FirstLower(a, b, i)
  {
    if a == "" || b == "" {
      if b != "" { assert FirstLower(a, b, 0); }
    } else if a[0] != b[0] {
      if a[0] < b[0] { assert FirstLower(a, b, 0); }
      forall i: nat | FirstLower(a, b, i) ensures i == 0 {
        if i > 0 { SameStart(a, b, i); }
      }
    } else {
      NotAboveExactly(a[1..], b[1..]);
      assert a == [a[0]] + a[1..] && b == [b[0]] + b[1..];
      if i: nat :| FirstLower(a, b, i) {
        FirstLowerTail(a, b, i - 1);
      }
      if i: nat :| FirstLower(a[1..], b[1..], i) {
        FirstLowerTail(a, b, i);
      }
    }
  }

  /** A node is shown exactly when the filter is empty or occurs in its lower-cased name or media class. */
  lemma ShownExactly(nodes: seq<PwNode>, filter: string, n: PwNode)
    ensures n in Shown(nodes, filter) <==>
              n in nodes && (filter == "" || Occurs(filter, Lower(n.name)) || Occurs(filter, Lower(n.mediaClass)))
  {
    ShownMeaning(nodes, filter);
    ContainsExactly(Lower(n.name), filter);
    ContainsExactly(Lower(n.mediaClass), filter);
  }

  // ------------------------------------------------------------------- columns

  predicate IsStream(n: PwNode) {
    OccursAt("stream/", Lower(n.mediaClass), 0)
  }

  ghost predicate IsSource(n: PwNode) {
    !IsStream(n) && Occurs("source", Lower(n.mediaClass))
  }

  ghost predicate IsSink(n: PwNode) {
    !IsStream(n) && !IsSource(n) && Occurs("sink", Lower(n.mediaClass))
  }

  lemma ColumnsOfKinds(n: PwNode)
    ensures ColumnOf(n) == 0 <==> IsSource(n)
    ensures ColumnOf(n) == 2 <==> IsSink(n)
    ensures ColumnOf(n) == 1 <==> !IsSource(n) && !IsSink(n)
  {
    ContainsExactly(Lower(n.mediaClass), "source");
    ContainsExactly(Lower(n.mediaClass), "sink");
  }

  /** Every box is 200 wide, and its left edge tells its kind: sources at 40, sinks at 600, the rest at 320. */
  lemma EdgesTellKinds(m: map<nat, NodeBox>, shown: seq<PwNode>, ports: seq<PwPort>, k: nat)
    requires SoundLayout(m, shown, ports) && k in m
    ensures Right(m[k]) == Left(m[k]) + 200.0
    ensures Left(m[k]) == (if IsSource(m[k].node) then 40.0 else if IsSink(m[k].node) then 600.0 else 320.0)
  {
    ColumnsOfKinds(m[k].node);
  }

  /**
    Signals flow from left to right: a source's box ends before any other box
    starts, a sink's starts after any other ends, and streams and the rest
    share the middle.
   */
  lemma FlowsLeftToRight(m: map<nat, NodeBox>, shown: seq<PwNode>, ports: seq<PwPort>, k: nat, l: nat)
    requires SoundLayout(m, shown, ports) && k in m && l in m
    ensures IsSource(m[k].node) && !IsSource(m[l].node) ==> Right(m[k]) < Left(m[l])
    ensures IsSink(m[k].node) && !IsSink(m[l].node) ==> Left(m[k]) > Right(m[l])
    ensures IsStream(m[k].node) && !IsSource(m[l].node) && !IsSink(m[l].node) ==> Left(m[k]) == Left(m[l])
  {
    EdgesTellKinds(m, shown, ports, k);
    EdgesTellKinds(m, shown, ports, l);
  }

  // ------------------------------------------------------------------- figures

  function Rows(b: NodeBox): nat {
    if |b.inputs| >= |b.outputs| then |b.inputs| else |b.outputs|
  }

  /** A box without ports is 60 high; with ports, 42 and another 22 for each row of its longer side. */
  lemma BoxHeight(b: NodeBox, ports: seq<PwPort>, col: nat)
    requires WellPlaced(b, ports, col)
    ensures Bottom(b) - Top(b) == if Rows(b) == 0 then 60.0 else 42.0 + 22.0 * Rows(b) as real
    ensures Top(b) >= 40.0
  {
    assert Rows(b) >= 1 ==> Rows(b) as real >= 1.0;
  }

  /**
    The rows of the longer side are centred between header and padding: the
    first centre is as far below the one as the last is above the other.
   */
  lemma RowsAreCentred(b: NodeBox, ports: seq<PwPort>, col: nat, output: bool)
    requires WellPlaced(b, ports, col) && |Side(b, output)| == Rows(b) > 0
    ensures CenterAt(b, output, 0).y - (Top(b) + 28.0 + 6.0)
            == (Bottom(b) - 8.0) - CenterAt(b, output, |Side(b, output)| - 1).y == 11.0
    ensures forall i :: 0 < i < |Side(b, output)| ==>
              CenterAt(b, output, i).y == CenterAt(b, output, i - 1).y + 22.0
  {
    BoxHeight(b, ports, col);
  }

  /** The first box of a column starts at 40, and each is 24 below the one before. */
  lemma ColumnFigures(list: seq<PwNode>, ports: seq<PwPort>, col: nat)
    ensures var r := PlaceColumn(list, ports, col, TOP_PAD);
            && (r != [] ==> Top(r[0]) == 40.0)
            && forall i :: 0 < i < |r| ==> Top(r[i]) == Bottom(r[i - 1]) + 24.0
  {
    ColumnIsPacked(list, ports, col, TOP_PAD);
  }

  /** The canvas is at least 1280 by 880, exactly that when empty, and 80 wider and higher than any box reaches. */
  lemma CanvasFigures(m: map<nat, NodeBox>, canvas: Size)
    requires FitsCanvas(m, canvas)
    ensures canvas.width >= 1280.0 && canvas.height >= 880.0
    ensures m == map[] ==> canvas == Size(1280.0, 880.0)
    ensures forall k :: k in m ==> Right(m[k]) + 80.0 <= canvas.width && Bottom(m[k]) + 80.0 <= canvas.height
  {
  }

  /** A disc reaches 8 to each side of its centre. */
  lemma DiscReach(c: Offset, d: real)
    ensures InDisc(Offset(c.x + d, c.y), c) <==> -8.0 <= d <= 8.0
    ensures InDisc(Offset(c.x, c.y + d), c) <==> -8.0 <= d <= 8.0
  {
    assert (c.x - (c.x + d)) * (c.x - (c.x + d)) == d * d;
    assert (c.y - (c.y + d)) * (c.y - (c.y + d)) == d * d;
    SquareWithin(d);
  }

  lemma SquareWithin(d: real)
    ensures d * d <= 64.0 <==> -8.0 <= d <= 8.0
  {
    if -8.0 <= d <= 8.0 {
      assert (8.0 - d) * (8.0 + d) >= 0.0;
      assert (8.0 - d) * (8.0 + d) == 64.0 - d * d;
    } else {
      WithinFails(d);
    }
  }

  lemma WithinFails(d: real)
    requires d < -8.0 || d > 8.0
    ensures d * d > 64.0
  {
    if d * d <= 64.0 {
      WithinRadius(d, 0.0);
      assert false;
    }
  }

  /** A box holds its left and upper edges, but not its right and lower ones. */
  lemma BoxReach(b: NodeBox, ports: seq<PwPort>, col: nat, dx: real, dy: real)
    requires WellPlaced(b, ports, col)
    ensures InRect(b, Offset(Left(b) + dx, Top(b) + dy)) <==> 0.0 <= dx < 200.0 && 0.0 <= dy < Bottom(b) - Top(b)
  {
  }

  // --------------------------------------------------------------- port order

  /** All of a comes in b, in this order. */
  predicate InOrder(a: seq<PwPort>, b: seq<PwPort>) {
    a == [] || (b != [] && ((a[0] == b[0] && InOrder(a[1..], b[1..])) || InOrder(a, b[1..])))
  }

  /** The ports of a node, and of one side of it, are in the order of the graph's ports. */
  lemma {:induction false} NodePortsInOrder(ports: seq<PwPort>, nodeId: nat)
    ensures InOrder(PortsForNode(ports, nodeId), ports)
  {
    if ports != [] {
      NodePortsInOrder(ports[1..], nodeId);
      var all, rest := PortsForNode(ports, nodeId), PortsForNode(ports[1..], nodeId);
      assert all == if ports[0].nodeId == nodeId then [ports[0]] + rest else rest;
      assert ports[0].nodeId == nodeId ==> all[1..] == rest;
    }
  }

  lemma {:induction false} SideInOrder(ports: seq<PwPort>, d: Direction)
    ensures InOrder(Facing(ports, d), ports)
  {
    if ports != [] {
      SideInOrder(ports[1..], d);
      var all, rest := Facing(ports, d), Facing(ports[1..], d);
      assert all == if ports[0].direction == d then [ports[0]] + rest else rest;
      assert ports[0].direction == d ==> all[1..] == rest;
    }
  }
}
