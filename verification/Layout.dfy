/**
  The column layout of the patchbay and its hit tests. Lengths are reals; all
  constants of the layout are whole or half units, so no rounding is lost.
 */
module Layout {
  import opened Prelude
  import opened Records

  datatype Offset = Offset(x: real, y: real)
  datatype Size = Size(width: real, height: real)

  const WIDTH := 200.0
  const HEADER_H := 28.0
  const PORT_ROW_H := 22.0
  const PAD_TOP := 6.0
  const PAD_BOT := 8.0
  const MIN_HEIGHT := 60.0
  const COL_W := 280.0
  const ROW_H := 24.0
  const TOP_PAD := 40.0
  const LEFT_PAD := 40.0
  const MARGIN := 80.0
  const MIN_WIDTH := 1200.0
  const MIN_CANVAS_HEIGHT := 800.0
  const HIT_RADIUS := 8.0

  datatype NodeBox = NodeBox(node: PwNode, inputs: seq<PwPort>, outputs: seq<PwPort>, position: Offset, size: Size)

  function Left(b: NodeBox): real { b.position.x }

  function Top(b: NodeBox): real { b.position.y }

  function Right(b: NodeBox): real { b.position.x + b.size.width }

  function Bottom(b: NodeBox): real { b.position.y + b.size.height }

  function Max(a: real, b: real): real {
    if a >= b then a else b
  }

  function SizeFor(inputs: nat, outputs: nat): Size {
    var rows := if inputs >= outputs then inputs else outputs;
    Size(WIDTH, Max(MIN_HEIGHT, HEADER_H + PAD_TOP + PAD_BOT + rows as real * PORT_ROW_H))
  }

  /** `indexWhere((p) => p.id == portId)`. */
  function IndexOf(ports: seq<PwPort>, id: nat): Option<nat> {
    if ports == [] then None
    else if ports[0].id == id then Some(0)
    else match IndexOf(ports[1..], id) case Some(i) => Some(i + 1) case None => None
  }

  /** Where the i-th port of a side is drawn. */
  function CenterAt(b: NodeBox, output: bool, i: nat): Offset {
    Offset(b.position.x + if output then b.size.width else 0.0,
           b.position.y + HEADER_H + PORT_ROW_H * (i as real + 0.5) + PAD_TOP)
  }

  function PortCenter(b: NodeBox, portId: nat): Option<Offset> {
    var isInput := IndexOf(b.inputs, portId).Some?;
    var idx := IndexOf(if isInput then b.inputs else b.outputs, portId);
    if idx.None? then None else Some(CenterAt(b, !isInput, idx.value))
  }

  // ------------------------------------------------------------------- columns

  function LowerChar(c: char): char {
    if 'A' <= c <= 'Z' then c + ' ' else c
  }

  function Lower(s: string): string {
    seq(|s|, i requires 0 <= i < |s| => LowerChar(s[i]))
  }

  predicate Contains(s: string, part: string) {
    part <= s || (s != "" && Contains(s[1..], part))
  }

  predicate Visible(n: PwNode, filter: string) {
    filter == "" || Contains(Lower(n.name), filter) || Contains(Lower(n.mediaClass), filter)
  }

  /** Streams in the middle, sources left, sinks right, the rest in the middle. */
  function ColumnOf(n: PwNode): nat {
    var cls := Lower(n.mediaClass);
    if "stream/" <= cls then 1
    else if Contains(cls, "source") then 0
    else if Contains(cls, "sink") then 2
    else 1
  }

  function Shown(nodes: seq<PwNode>, filter: string): seq<PwNode> {
    if nodes == [] then [] else
    Shown(nodes[..|nodes| - 1], filter) + if Visible(nodes[|nodes| - 1], filter) then [nodes[|nodes| - 1]] else []
  }

  function Bucket(nodes: seq<PwNode>, col: nat): seq<PwNode> {
    if nodes == [] then [] else
    Bucket(nodes[..|nodes| - 1], col) + if ColumnOf(nodes[|nodes| - 1]) == col then [nodes[|nodes| - 1]] else []
  }

  function PortsForNode(ports: seq<PwPort>, nodeId: nat): seq<PwPort> {
    if ports == [] then [] else
    (if ports[0].nodeId == nodeId then [ports[0]] else []) + PortsForNode(ports[1..], nodeId)
  }

  function Facing(ports: seq<PwPort>, d: Direction): seq<PwPort> {
    if ports == [] then [] else
    (if ports[0].direction == d then [ports[0]] else []) + Facing(ports[1..], d)
  }

  function BoxFor(n: PwNode, ports: seq<PwPort>, col: nat, y: real): NodeBox {
    var mine := PortsForNode(ports, n.id);
    var inputs, outputs := Facing(mine, Input), Facing(mine, Output);
    NodeBox(n, inputs, outputs, Offset(LEFT_PAD + col as real * COL_W, y), SizeFor(|inputs|, |outputs|))
  }

  /** The boxes of one column, top down. */
  function PlaceColumn(list: seq<PwNode>, ports: seq<PwPort>, col: nat, y: real): seq<NodeBox> {
    if list == [] then [] else
    var b := BoxFor(list[0], ports, col, y);
    [b] + PlaceColumn(list[1..], ports, col, y + b.size.height + ROW_H)
  }

  /** Code-unit order of Dart strings, not above. */
  predicate NotAbove(a: string, b: string) {
    a == "" || (b != "" && (a[0] < b[0] || (a[0] == b[0] && NotAbove(a[1..], b[1..]))))
  }

  ghost predicate SortedByName(list: seq<PwNode>) {
    forall i, j :: 0 <= i < j < |list| ==> NotAbove(list[i].name, list[j].name)
  }

  // ------------------------------------------------------- soundness of a layout

  ghost predicate Apart(a: NodeBox, b: NodeBox) {
    || Right(a) + ROW_H <= Left(b) || Right(b) + ROW_H <= Left(a)
    || Bottom(a) + ROW_H <= Top(b) || Bottom(b) + ROW_H <= Top(a)
  }

  /** A box is where and how large its node's column and ports make it. */
  ghost predicate WellPlaced(b: NodeBox, ports: seq<PwPort>, col: nat) {
    && b.inputs == Facing(PortsForNode(ports, b.node.id), Input)
    && b.outputs == Facing(PortsForNode(ports, b.node.id), Output)
    && b.size == SizeFor(|b.inputs|, |b.outputs|)
    && b.position.x == LEFT_PAD + col as real * COL_W
    && b.position.y >= TOP_PAD
  }

  lemma {:induction false} ColumnPlacement(list: seq<PwNode>, ports: seq<PwPort>, col: nat, y: real)
    requires y >= TOP_PAD
    ensures var r := PlaceColumn(list, ports, col, y);
            && |r| == |list|
            && (forall i :: 0 <= i < |r| ==> r[i].node == list[i] && WellPlaced(r[i], ports, col) && Top(r[i]) >= y)
            && (forall i, j :: 0 <= i < j < |r| ==> Bottom(r[i]) + ROW_H <= Top(r[j]))
    decreases |list|
  {
    if list != [] {
      var b := BoxFor(list[0], ports, col, y);
      ColumnPlacement(list[1..], ports, col, y + b.size.height + ROW_H);
    }
  }

  /** A column is packed: it starts at y, and each box is exactly one row gap below the one before. */
  lemma {:induction false} ColumnIsPacked(list: seq<PwNode>, ports: seq<PwPort>, col: nat, y: real)
    ensures var r := PlaceColumn(list, ports, col, y);
            && (r != [] ==> Top(r[0]) == y)
            && forall i :: 0 < i < |r| ==> Top(r[i]) == Bottom(r[i - 1]) + ROW_H
    decreases |list|
  {
    if list != [] {
      var b := BoxFor(list[0], ports, col, y);
      ColumnIsPacked(list[1..], ports, col, y + b.size.height + ROW_H);
    }
  }

  /** All three columns, in the order their boxes enter the map. */
  function Placed(cols: seq<seq<PwNode>>, ports: seq<PwPort>): seq<NodeBox>
    requires |cols| == 3
  {
    PlaceColumn(cols[0], ports, 0, TOP_PAD) + PlaceColumn(cols[1], ports, 1, TOP_PAD)
    + PlaceColumn(cols[2], ports, 2, TOP_PAD)
  }

  /** A column is one of the sorted arrangements of its bucket; which one is up to the sort. */
  ghost predicate Arranged(cols: seq<seq<PwNode>>, shown: seq<PwNode>) {
    && |cols| == 3
    && forall c :: 0 <= c < 3 ==> SortedByName(cols[c]) && multiset(cols[c]) == multiset(Bucket(shown, c))
  }

  lemma {:induction false} BucketColumn(nodes: seq<PwNode>, col: nat)
    ensures forall n :: n in Bucket(nodes, col) <==> n in nodes && ColumnOf(n) == col
  {
    if nodes != [] {
      BucketColumn(nodes[..|nodes| - 1], col);
      assert nodes == nodes[..|nodes| - 1] + [nodes[|nodes| - 1]];
    }
  }

  lemma {:induction false} ShownMeaning(nodes: seq<PwNode>, filter: string)
    ensures forall n :: n in Shown(nodes, filter) <==> n in nodes && Visible(n, filter)
  {
    if nodes != [] {
      ShownMeaning(nodes[..|nodes| - 1], filter);
      assert nodes == nodes[..|nodes| - 1] + [nodes[|nodes| - 1]];
    }
  }

  lemma ArrangedMembers(cols: seq<seq<PwNode>>, shown: seq<PwNode>, c: nat, n: PwNode)
    requires Arranged(cols, shown) && c < 3
    ensures n in cols[c] <==> n in shown && ColumnOf(n) == c
  {
    BucketColumn(shown, c);
    assert n in cols[c] <==> n in multiset(cols[c]);
    assert n in Bucket(shown, c) <==> n in multiset(Bucket(shown, c));
  }

  /** Every placed box is well placed in its own node's column, and any two are a row gap apart. */
  ghost predicate SoundBoxes(boxes: seq<NodeBox>, shown: seq<PwNode>, ports: seq<PwPort>) {
    && (forall i :: 0 <= i < |boxes| ==> boxes[i].node in shown && WellPlaced(boxes[i], ports, ColumnOf(boxes[i].node)))
    && (forall n :: n in shown ==> exists i :: 0 <= i < |boxes| && boxes[i].node == n)
    && (forall i, j :: 0 <= i < j < |boxes| ==> Apart(boxes[i], boxes[j]))
  }

  lemma ColumnsApart(a: NodeBox, b: NodeBox, ports: seq<PwPort>, c: nat, d: nat)
    requires WellPlaced(a, ports, c) && WellPlaced(b, ports, d) && c != d
    ensures Apart(a, b)
  {
    if c < d {
      assert (d - c) as real >= 1.0;
      assert d as real == c as real + (d - c) as real;
    } else {
      assert (c - d) as real >= 1.0;
      assert c as real == d as real + (c - d) as real;
    }
  }

  lemma PlacedWell(cols: seq<seq<PwNode>>, shown: seq<PwNode>, ports: seq<PwPort>, i: nat)
    requires Arranged(cols, shown) && i < |Placed(cols, ports)|
    ensures var b := Placed(cols, ports)[i];
            b.node in shown && WellPlaced(b, ports, ColumnOf(b.node))
  {
    var c, k := Locate(cols, ports, i);
    ArrangedMembers(cols, shown, c, Placed(cols, ports)[i].node);
  }

  /** Every row of every column is placed. */
  lemma PlacedRow(cols: seq<seq<PwNode>>, ports: seq<PwPort>, c: nat, k: nat)
    requires |cols| == 3 && c < 3 && k < |cols[c]|
    ensures exists i :: 0 <= i < |Placed(cols, ports)| && Placed(cols, ports)[i].node == cols[c][k]
  {
    ColumnPlacement(cols[0], ports, 0, TOP_PAD);
    ColumnPlacement(cols[1], ports, 1, TOP_PAD);
    ColumnPlacement(cols[2], ports, 2, TOP_PAD);
    var i := k + if c == 0 then 0 else if c == 1 then |cols[0]| else |cols[0]| + |cols[1]|;
    assert Placed(cols, ports)[i] == PlaceColumn(cols[c], ports, c, TOP_PAD)[k];
  }

  lemma PlacedAll(cols: seq<seq<PwNode>>, shown: seq<PwNode>, ports: seq<PwPort>, n: PwNode)
    requires Arranged(cols, shown) && n in shown
    ensures exists i :: 0 <= i < |Placed(cols, ports)| && Placed(cols, ports)[i].node == n
  {
    var c := ColumnOf(n);
    ArrangedMembers(cols, shown, c, n);
    var k :| 0 <= k < |cols[c]| && cols[c][k] == n;
    PlacedRow(cols, ports, c, k);
  }

  lemma PlacedApart(cols: seq<seq<PwNode>>, ports: seq<PwPort>, i: nat, j: nat)
    requires |cols| == 3 && i < j < |Placed(cols, ports)|
    ensures Apart(Placed(cols, ports)[i], Placed(cols, ports)[j])
  {
    var c, k := Locate(cols, ports, i);
    var d, l := Locate(cols, ports, j);
    if c == d {
      ColumnPlacement(cols[c], ports, c, TOP_PAD);
    } else {
      ColumnsApart(Placed(cols, ports)[i], Placed(cols, ports)[j], ports, c, d);
    }
  }

  lemma PlacedIsSound(cols: seq<seq<PwNode>>, shown: seq<PwNode>, ports: seq<PwPort>)
    requires Arranged(cols, shown)
    ensures SoundBoxes(Placed(cols, ports), shown, ports)
  {
    var boxes := Placed(cols, ports);
    forall i | 0 <= i < |boxes|
      ensures boxes[i].node in shown && WellPlaced(boxes[i], ports, ColumnOf(boxes[i].node))
    {
      PlacedWell(cols, shown, ports, i);
    }
    forall n | n in shown
      ensures exists i :: 0 <= i < |boxes| && boxes[i].node == n
    {
      PlacedAll(cols, shown, ports, n);
    }
    forall i, j | 0 <= i < j < |boxes|
      ensures Apart(boxes[i], boxes[j])
    {
      PlacedApart(cols, ports, i, j);
    }
  }

  /** The column and row of the i-th placed box. */
  lemma Locate(cols: seq<seq<PwNode>>, ports: seq<PwPort>, i: nat) returns (c: nat, k: nat)
    requires |cols| == 3 && i < |Placed(cols, ports)|
    ensures c < 3 && k < |cols[c]|
    ensures |PlaceColumn(cols[c], ports, c, TOP_PAD)| == |cols[c]|
    ensures Placed(cols, ports)[i] == PlaceColumn(cols[c], ports, c, TOP_PAD)[k]
    ensures Placed(cols, ports)[i].node == cols[c][k] && WellPlaced(Placed(cols, ports)[i], ports, c)
    ensures i == k + (if c == 0 then 0 else if c == 1 then |cols[0]| else |cols[0]| + |cols[1]|)
  {
    ColumnPlacement(cols[0], ports, 0, TOP_PAD);
    ColumnPlacement(cols[1], ports, 1, TOP_PAD);
    ColumnPlacement(cols[2], ports, 2, TOP_PAD);
    if i < |cols[0]| {
      c, k := 0, i;
    } else if i < |cols[0]| + |cols[1]| {
      c, k := 1, i - |cols[0]|;
    } else {
      c, k := 2, i - |cols[0]| - |cols[1]|;
    }
  }

  /** Within a column the boxes read in name order, top to bottom. */
  lemma ColumnsReadInNameOrder(cols: seq<seq<PwNode>>, shown: seq<PwNode>, ports: seq<PwPort>, i: nat, j: nat)
    requires Arranged(cols, shown) && i < |Placed(cols, ports)| && j < |Placed(cols, ports)|
    requires var a, b := Placed(cols, ports)[i], Placed(cols, ports)[j];
             ColumnOf(a.node) == ColumnOf(b.node) && Top(a) < Top(b)
    ensures NotAbove(Placed(cols, ports)[i].node.name, Placed(cols, ports)[j].node.name)
  {
    var c, k := Locate(cols, ports, i);
    var d, l := Locate(cols, ports, j);
    ArrangedMembers(cols, shown, c, cols[c][k]);
    ArrangedMembers(cols, shown, d, cols[d][l]);
    ColumnPlacement(cols[c], ports, c, TOP_PAD);
  }

  // -------------------------------------------------------------- the box map

  /** Entering boxes into the map one after another; a later box of the same id displaces an earlier. */
  function BoxMap(boxes: seq<NodeBox>): map<nat, NodeBox> {
    if boxes == [] then map[] else
    BoxMap(boxes[..|boxes| - 1])[boxes[|boxes| - 1].node.id := boxes[|boxes| - 1]]
  }

  lemma {:induction false} BoxMapMeaning(boxes: seq<NodeBox>)
    ensures forall k :: k in BoxMap(boxes)
              ==> exists i :: 0 <= i < |boxes| && boxes[i].node.id == k && BoxMap(boxes)[k] == boxes[i]
    ensures forall i :: 0 <= i < |boxes| ==> boxes[i].node.id in BoxMap(boxes)
  {
    if boxes != [] {
      var front := boxes[..|boxes| - 1];
      BoxMapMeaning(front);
      forall k | k in BoxMap(boxes)
        ensures exists i :: 0 <= i < |boxes| && boxes[i].node.id == k && BoxMap(boxes)[k] == boxes[i]
      {
        if k == boxes[|boxes| - 1].node.id {
          assert BoxMap(boxes)[k] == boxes[|boxes| - 1];
        } else {
          var i :| 0 <= i < |front| && front[i].node.id == k && BoxMap(front)[k] == front[i];
          assert boxes[i] == front[i];
        }
      }
      forall i | 0 <= i < |boxes| ensures boxes[i].node.id in BoxMap(boxes) {
        if i < |front| { assert boxes[i] == front[i]; }
      }
    }
  }

  /** A layout's boxes: exactly one per visible node id, well placed, pairwise a gap apart. */
  ghost predicate SoundLayout(m: map<nat, NodeBox>, shown: seq<PwNode>, ports: seq<PwPort>) {
    && (forall k :: k in m <==> exists n :: n in shown && n.id == k)
    && (forall k :: k in m ==> m[k].node in shown && m[k].node.id == k && WellPlaced(m[k], ports, ColumnOf(m[k].node)))
    && (forall k, l :: k in m && l in m && k != l ==> Apart(m[k], m[l]))
  }

  /** The box a key of the map stands for. */
  lemma BoxAt(boxes: seq<NodeBox>, k: nat) returns (i: nat)
    requires k in BoxMap(boxes)
    ensures i < |boxes| && boxes[i].node.id == k && BoxMap(boxes)[k] == boxes[i]
  {
    BoxMapMeaning(boxes);
    i :| 0 <= i < |boxes| && boxes[i].node.id == k && BoxMap(boxes)[k] == boxes[i];
  }

  lemma MapKeys(boxes: seq<NodeBox>, shown: seq<PwNode>, ports: seq<PwPort>, k: nat)
    requires SoundBoxes(boxes, shown, ports)
    ensures k in BoxMap(boxes) <==> exists n :: n in shown && n.id == k
  {
    if k in BoxMap(boxes) {
      var i := BoxAt(boxes, k);
    }
    if n :| n in shown && n.id == k {
      var i :| 0 <= i < |boxes| && boxes[i].node == n;
      BoxMapMeaning(boxes);
    }
  }

  lemma MapIsSound(boxes: seq<NodeBox>, shown: seq<PwNode>, ports: seq<PwPort>)
    requires SoundBoxes(boxes, shown, ports)
    ensures SoundLayout(BoxMap(boxes), shown, ports)
  {
    var m := BoxMap(boxes);
    forall k: nat ensures k in m <==> exists n :: n in shown && n.id == k {
      MapKeys(boxes, shown, ports, k);
    }
    forall k | k in m
      ensures m[k].node in shown && m[k].node.id == k && WellPlaced(m[k], ports, ColumnOf(m[k].node))
    {
      var i := BoxAt(boxes, k);
    }
    forall k, l | k in m && l in m && k != l
      ensures Apart(m[k], m[l])
    {
      MapApart(boxes, k, l);
    }
  }

  lemma MapApart(boxes: seq<NodeBox>, k: nat, l: nat)
    requires forall i, j :: 0 <= i < j < |boxes| ==> Apart(boxes[i], boxes[j])
    requires k in BoxMap(boxes) && l in BoxMap(boxes) && k != l
    ensures Apart(BoxMap(boxes)[k], BoxMap(boxes)[l])
  {
    var i := BoxAt(boxes, k);
    var j := BoxAt(boxes, l);
    if i < j {
      assert Apart(boxes[i], boxes[j]);
    } else {
      assert i != j;
      ApartEitherWay(boxes[j], boxes[i]);
    }
  }

  lemma ApartEitherWay(a: NodeBox, b: NodeBox)
    ensures Apart(a, b) <==> Apart(b, a)
  {
  }

  /** Every column reads in name order, top to bottom. */
  ghost predicate ReadsInNameOrder(m: map<nat, NodeBox>) {
    forall k, l :: k in m && l in m && ColumnOf(m[k].node) == ColumnOf(m[l].node) && Top(m[k]) < Top(m[l])
      ==> NotAbove(m[k].node.name, m[l].node.name)
  }

  lemma MapReadsInNameOrder(cols: seq<seq<PwNode>>, shown: seq<PwNode>, ports: seq<PwPort>)
    requires Arranged(cols, shown)
    ensures ReadsInNameOrder(BoxMap(Placed(cols, ports)))
  {
    var boxes := Placed(cols, ports);
    var m := BoxMap(boxes);
    forall k, l | k in m && l in m && ColumnOf(m[k].node) == ColumnOf(m[l].node) && Top(m[k]) < Top(m[l])
      ensures NotAbove(m[k].node.name, m[l].node.name)
    {
      var i := BoxAt(boxes, k);
      var j := BoxAt(boxes, l);
      ColumnsReadInNameOrder(cols, shown, ports, i, j);
    }
  }

  /** The canvas leaves a margin right of and below every box, and is no larger than that or its minimum needs. */
  ghost predicate FitsCanvas(m: map<nat, NodeBox>, canvas: Size) {
    && (forall k :: k in m ==> Right(m[k]) + MARGIN <= canvas.width && Bottom(m[k]) + MARGIN <= canvas.height)
    && (canvas.width == MIN_WIDTH + MARGIN
        || exists k :: k in m && Right(m[k]) + MARGIN == canvas.width > MIN_WIDTH + MARGIN)
    && (canvas.height == MIN_CANVAS_HEIGHT + MARGIN
        || exists k :: k in m && Bottom(m[k]) + MARGIN == canvas.height > MIN_CANVAS_HEIGHT + MARGIN)
  }

  // ------------------------------------------------------------------- methods

  lemma {:induction false} NotAboveTotal(a: string, b: string)
    ensures NotAbove(a, b) || NotAbove(b, a)
  {
    if a != "" && b != "" && a[0] == b[0] { NotAboveTotal(a[1..], b[1..]); }
  }

  lemma {:induction false} NotAboveTransitive(a: string, b: string, c: string)
    requires NotAbove(a, b) && NotAbove(b, c)
    ensures NotAbove(a, c)
  {
    if a != "" && a[0] == b[0] == c[0] { NotAboveTransitive(a[1..], b[1..], c[1..]); }
  }

  /** Between names not above it and names it is not above, a node keeps the list sorted. */
  lemma InsertSorted(list: seq<PwNode>, i: nat, n: PwNode)
    requires SortedByName(list) && i <= |list|
    requires i > 0 ==> NotAbove(list[i - 1].name, n.name)
    requires forall j :: i <= j < |list| ==> NotAbove(n.name, list[j].name)
    ensures SortedByName(list[..i] + [n] + list[i..])
  {
    var r := list[..i] + [n] + list[i..];
    forall j | 0 <= j < i ensures NotAbove(list[j].name, n.name) {
      if j < i - 1 { NotAboveTransitive(list[j].name, list[i - 1].name, n.name); }
    }
    forall j, k | 0 <= j < k < |r| ensures NotAbove(r[j].name, r[k].name) {
      assert r[j] == if j < i then list[j] else if j == i then n else list[j - 1];
      assert r[k] == if k < i then list[k] else if k == i then n else list[k - 1];
    }
  }

  /** Where a node goes in a sorted list. */
  method InsertByName(list: seq<PwNode>, n: PwNode) returns (r: seq<PwNode>)
    requires SortedByName(list)
    ensures SortedByName(r) && multiset(r) == multiset(list) + multiset{n}
  {
    var i := |list|;
    while i > 0 && !NotAbove(list[i - 1].name, n.name)
      invariant 0 <= i <= |list|
      invariant forall j :: i <= j < |list| ==> NotAbove(n.name, list[j].name)
    {
      NotAboveTotal(list[i - 1].name, n.name);
      i := i - 1;
    }
    r := list[..i] + [n] + list[i..];
    assert list == list[..i] + list[i..];
    InsertSorted(list, i, n);
  }

  /** `list.sort((a, b) => a.name.compareTo(b.name))`. */
  method SortByName(list: seq<PwNode>) returns (r: seq<PwNode>)
    ensures SortedByName(r) && multiset(r) == multiset(list)
  {
    r := [];
    for i := 0 to |list|
      invariant SortedByName(r) && multiset(r) == multiset(list[..i])
    {
      r := InsertByName(r, list[i]);
      assert list[..i + 1] == list[..i] + [list[i]];
    }
    assert list[..|list|] == list;
  }

  lemma NextBox(list: seq<PwNode>, ports: seq<PwPort>, col: nat, y: real, i: nat, done: seq<NodeBox>)
    requires i < |list|
    ensures var box := BoxFor(list[i], ports, col, y);
            && box.node == list[i]
            && done + PlaceColumn(list[i..], ports, col, y)
            == done + [box] + PlaceColumn(list[i + 1..], ports, col, y + box.size.height + ROW_H)
  {
    assert list[i..][0] == list[i] && list[i..][1..] == list[i + 1..];
  }

  lemma EnterBox(before: seq<NodeBox>, done: seq<NodeBox>, box: NodeBox)
    ensures BoxMap(before + (done + [box])) == BoxMap(before + done)[box.node.id := box]
  {
    var all := before + (done + [box]);
    assert all[..|all| - 1] == before + done;
  }

  /** Filling one column: y starts at the top pad and moves down by each box and a gap. */
  method PlaceLoop(list: seq<PwNode>, ports: seq<PwPort>, col: nat, ghost before: seq<NodeBox>,
                   boxes: map<nat, NodeBox>)
    returns (after: map<nat, NodeBox>)
    requires boxes == BoxMap(before)
    ensures after == BoxMap(before + PlaceColumn(list, ports, col, TOP_PAD))
  {
    after := boxes;
    var y := TOP_PAD;
    ghost var done: seq<NodeBox> := [];
    assert before + done == before;
    for i := 0 to |list|
      invariant after == BoxMap(before + done)
      invariant done + PlaceColumn(list[i..], ports, col, y) == PlaceColumn(list, ports, col, TOP_PAD)
    {
      var box := BoxFor(list[i], ports, col, y);
      after := after[list[i].id := box];
      NextBox(list, ports, col, y, i, done);
      EnterBox(before, done, box);
      done := done + [box];
      y := y + box.size.height + ROW_H;
    }
    assert list[|list|..] == [] && done + [] == done;
  }

  /** Sorting the visible nodes into their three columns. */
  method BucketLoop(shown: seq<PwNode>) returns (cols: seq<seq<PwNode>>)
    ensures |cols| == 3 && forall c :: 0 <= c < 3 ==> cols[c] == Bucket(shown, c)
  {
    cols := [[], [], []];
    for i := 0 to |shown|
      invariant |cols| == 3 && forall c :: 0 <= c < 3 ==> cols[c] == Bucket(shown[..i], c)
    {
      var col := ColumnOf(shown[i]);
      assert shown[..i + 1][..i] == shown[..i];
      cols := cols[col := cols[col] + [shown[i]]];
    }
    assert shown[..|shown|] == shown;
  }

  method CanvasFor(boxes: map<nat, NodeBox>) returns (canvas: Size)
    ensures FitsCanvas(boxes, canvas)
  {
    var maxX, maxY := MIN_WIDTH, MIN_CANVAS_HEIGHT;
    var left := boxes.Keys;
    while left != {}
      invariant left <= boxes.Keys
      invariant forall k :: k in boxes && k !in left ==> Right(boxes[k]) <= maxX && Bottom(boxes[k]) <= maxY
      invariant maxX == MIN_WIDTH || exists k :: k in boxes && Right(boxes[k]) == maxX > MIN_WIDTH
      invariant maxY == MIN_CANVAS_HEIGHT || exists k :: k in boxes && Bottom(boxes[k]) == maxY > MIN_CANVAS_HEIGHT
      decreases left
    {
      var k :| k in left;
      left := left - {k};
      if Right(boxes[k]) > maxX { maxX := Right(boxes[k]); }
      if Bottom(boxes[k]) > maxY { maxY := Bottom(boxes[k]); }
    }
    canvas := Size(maxX + MARGIN, maxY + MARGIN);
  }

  lemma ColumnsAreSound(c0: seq<PwNode>, c1: seq<PwNode>, c2: seq<PwNode>, shown: seq<PwNode>, ports: seq<PwPort>)
    requires SortedByName(c0) && SortedByName(c1) && SortedByName(c2)
    requires multiset(c0) == multiset(Bucket(shown, 0))
    requires multiset(c1) == multiset(Bucket(shown, 1))
    requires multiset(c2) == multiset(Bucket(shown, 2))
    ensures Arranged([c0, c1, c2], shown)
    ensures [] + PlaceColumn(c0, ports, 0, TOP_PAD) + PlaceColumn(c1, ports, 1, TOP_PAD)
            + PlaceColumn(c2, ports, 2, TOP_PAD) == Placed([c0, c1, c2], ports)
    ensures SoundLayout(BoxMap(Placed([c0, c1, c2], ports)), shown, ports)
    ensures ReadsInNameOrder(BoxMap(Placed([c0, c1, c2], ports)))
  {
    PlacedIsSound([c0, c1, c2], shown, ports);
    MapIsSound(Placed([c0, c1, c2], ports), shown, ports);
    MapReadsInNameOrder([c0, c1, c2], shown, ports);
    assert [] + PlaceColumn(c0, ports, 0, TOP_PAD) == PlaceColumn(c0, ports, 0, TOP_PAD);
  }

  /**
    The layout of every graph under every filter: one well-placed box for each
    visible node and no others, no two boxes nearer than a row gap, columns that
    read in name order and are packed without further gaps (the boxes are those
    of `cols`, the columns as sorted), and a canvas that fits. `nodes` and
    `ports` are the map values in iteration order.
   */
  method Compute(nodes: seq<PwNode>, ports: seq<PwPort>, filter: string)
    returns (boxes: map<nat, NodeBox>, canvas: Size, ghost cols: seq<seq<PwNode>>)
    ensures SoundLayout(boxes, Shown(nodes, filter), ports)
    ensures ReadsInNameOrder(boxes)
    ensures Arranged(cols, Shown(nodes, filter)) && boxes == BoxMap(Placed(cols, ports))
    ensures FitsCanvas(boxes, canvas)
  {
    var shown := Shown(nodes, filter);
    var buckets := BucketLoop(shown);
    var c0 := SortByName(buckets[0]);
    var c1 := SortByName(buckets[1]);
    var c2 := SortByName(buckets[2]);
    cols := [c0, c1, c2];
    ghost var placed := [];
    boxes := PlaceLoop(c0, ports, 0, placed, map[]);
    placed := placed + PlaceColumn(c0, ports, 0, TOP_PAD);
    boxes := PlaceLoop(c1, ports, 1, placed, boxes);
    placed := placed + PlaceColumn(c1, ports, 1, TOP_PAD);
    boxes := PlaceLoop(c2, ports, 2, placed, boxes);
    ColumnsAreSound(c0, c1, c2, shown, ports);
    canvas := CanvasFor(boxes);
  }
}
