/**
 * The supply-chain graph view-model that the grain, fish and fruits case-study
 * components each carry a copy of, written once and generic in the node-id type.
 *
 * A case study is a table of nodes (id and layout position), a list of directed
 * connections and, for grain and fish, named paths (ordered id lists). The
 * component keeps a small selection state (hovered node, selected node, selected
 * path, zoom); the functions here decide the emphasis of every node and
 * connection from that state, and compute each connector's geometry.
 */
module SupplyChain {
  import opened Wrappers
  import opened Seqs

  // ---------------------------------------------------------------- graph model

  /** Every node is drawn as a 48 x 48 square whose top-left corner is its position. */
  const NodeWidth: int := 48
  const NodeHeight: int := 48

  /** A node of the diagram: the display metadata and KPIs are left out. */
  datatype Node<Id> = Node(id: Id, x: int, y: int)

  datatype Connection<Id> = Connection(from: Id, to: Id)

  /** `nodes.find(n => n.id === id)`: the first node with that id, if any. */
  function FindNode<Id(==)>(nodes: seq<Node<Id>>, id: Id): (r: Option<Node<Id>>)
    ensures r.None? <==> forall i :: 0 <= i < |nodes| ==> nodes[i].id != id
    ensures r.Some? ==> exists i :: 0 <= i < |nodes| && nodes[i] == r.value && r.value.id == id &&
                                    forall j :: 0 <= j < i ==> nodes[j].id != id
  {
    if nodes == [] then None
    else if nodes[0].id == id then Some(nodes[0])
    else
      var r := FindNode(nodes[1..], id);
      assert forall j :: 1 <= j < |nodes| ==> nodes[j] == nodes[1..][j - 1];
      r
  }

  /** What `find` returns is a node of the table. */
  lemma FoundNodeIsListed<Id>(nodes: seq<Node<Id>>, id: Id)
    requires FindNode(nodes, id).Some?
    ensures FindNode(nodes, id).value in nodes
  {
    var r := FindNode(nodes, id);
    var i :| 0 <= i < |nodes| && nodes[i] == r.value && r.value.id == id &&
             forall j :: 0 <= j < i ==> nodes[j].id != id;
  }

  /** With unique ids, looking a node up by its own id finds exactly that node. */
  lemma FindNodeUnique<Id>(nodes: seq<Node<Id>>, i: int)
    requires UniqueIds(nodes) && 0 <= i < |nodes|
    ensures FindNode(nodes, nodes[i].id) == Some(nodes[i])
  {
    var r := FindNode(nodes, nodes[i].id);
    var j :| 0 <= j < |nodes| && nodes[j] == r.value && r.value.id == nodes[i].id;
    assert i == j;
  }

  /** `s.indexOf(x)`: the index of the first occurrence of `x`, or -1. */
  function IndexOf<T(==)>(s: seq<T>, x: T): (r: int)
    ensures -1 <= r < |s|
    ensures r == -1 <==> x !in s
    ensures r >= 0 ==> s[r] == x && x !in s[..r]
  {
    if s == [] then -1
    else if s[0] == x then 0
    else
      var k := IndexOf(s[1..], x);
      assert s == [s[0]] + s[1..];
      if k == -1 then -1
      else
        assert s[..k + 1] == [s[0]] + s[1..][..k];
        k + 1
  }

  /** In a duplicate-free sequence, `indexOf` finds an element at its own position. */
  lemma IndexOfDistinct<T>(s: seq<T>, i: int)
    requires NoDup(s) && 0 <= i < |s|
    ensures IndexOf(s, s[i]) == i
  {
  }

  /** Node ids are distinct. */
  ghost predicate UniqueIds<Id>(nodes: seq<Node<Id>>) {
    forall i, j :: 0 <= i < j < |nodes| ==> nodes[i].id != nodes[j].id
  }

  ghost predicate EndpointsDeclared<Id>(nodes: seq<Node<Id>>, connections: seq<Connection<Id>>) {
    forall k :: 0 <= k < |connections| ==>
      FindNode(nodes, connections[k].from).Some? && FindNode(nodes, connections[k].to).Some?
  }

  /** Every step of the path is one of the declared connections. */
  ghost predicate FollowsConnections<Id>(path: seq<Id>, connections: seq<Connection<Id>>) {
    forall i :: 0 <= i < |path| - 1 ==> Connection(path[i], path[i + 1]) in connections
  }

  // ---------------------------------------------------------- selection state

  /**
   * Toggle semantics of `selectPath` and `onNodeClick`: choosing the value that
   * is already selected clears the selection; anything else replaces it.
   */
  function Toggle<T(==)>(current: Option<T>, v: T): (r: Option<T>)
    ensures r == None <==> current == Some(v)
    ensures r != None ==> r == Some(v)
  {
    if current == Some(v) then None else Some(v)
  }

  /** Zoom is kept in tenths: 5..15 stands for 0.5..1.5, 10 is the default 1.0. */
  const MinZoom: int := 5
  const MaxZoom: int := 15
  const DefaultZoom: int := 10

  /** `Math.min(zoom + 0.1, 1.5)`. */
  function ZoomedIn(z: int): int {
    if z + 1 < MaxZoom then z + 1 else MaxZoom
  }

  /** `Math.max(zoom - 0.1, 0.5)`. */
  function ZoomedOut(z: int): int {
    if z - 1 > MinZoom then z - 1 else MinZoom
  }

  /** `Math.round(zoom * 100)`; with zoom in exact tenths the product is an integer. */
  function ZoomPercent(z: int): (r: int)
    requires MinZoom <= z <= MaxZoom
    ensures r as real == (z as real / 10.0) * 100.0
    ensures 50 <= r <= 150 && r % 10 == 0
    ensures r == 100 <==> z == DefaultZoom
  {
    z * 10
  }

  /** The three zoom buttons. */
  datatype ZoomAction = ZoomIn | ZoomOut | ResetZoom

  function ZoomStep(z: int, a: ZoomAction): int {
    match a
    case ZoomIn => ZoomedIn(z)
    case ZoomOut => ZoomedOut(z)
    case ResetZoom => DefaultZoom
  }

  /** The zoom level after pressing the buttons `actions` in order. */
  function ApplyZoom(z: int, actions: seq<ZoomAction>): int
    decreases |actions|
  {
    if actions == [] then z else ApplyZoom(ZoomStep(z, actions[0]), actions[1..])
  }

  /** No sequence of button presses takes the zoom out of [0.5, 1.5]. */
  lemma {:induction false} ZoomStaysInRange(z: int, actions: seq<ZoomAction>)
    requires MinZoom <= z <= MaxZoom
    ensures MinZoom <= ApplyZoom(z, actions) <= MaxZoom
    decreases |actions|
  {
    if actions != [] {
      ZoomStaysInRange(ZoomStep(z, actions[0]), actions[1..]);
    }
  }

  function Repeat(a: ZoomAction, n: nat): (r: seq<ZoomAction>)
    ensures |r| == n
    ensures forall i :: 0 <= i < n ==> r[i] == a
  {
    if n == 0 then [] else [a] + Repeat(a, n - 1)
  }

  /** Zooming in n times adds n tenths until the 1.5 ceiling. */
  lemma {:induction false} ZoomInRepeated(z: int, n: nat)
    requires MinZoom <= z <= MaxZoom
    ensures ApplyZoom(z, Repeat(ZoomIn, n)) == if z + n < MaxZoom then z + n else MaxZoom
    decreases n
  {
    if n > 0 {
      assert Repeat(ZoomIn, n)[1..] == Repeat(ZoomIn, n - 1);
      ZoomInRepeated(ZoomedIn(z), n - 1);
    }
  }

  /** Zooming out n times removes n tenths until the 0.5 floor. */
  lemma {:induction false} ZoomOutRepeated(z: int, n: nat)
    requires MinZoom <= z <= MaxZoom
    ensures ApplyZoom(z, Repeat(ZoomOut, n)) == if z - n > MinZoom then z - n else MinZoom
    decreases n
  {
    if n > 0 {
      assert Repeat(ZoomOut, n)[1..] == Repeat(ZoomOut, n - 1);
      ZoomOutRepeated(ZoomedOut(z), n - 1);
    }
  }

  // ------------------------------------------------------- highlight engine

  function Abs(n: int): nat {
    if n < 0 then -n else n
  }

  /** `isNodeHighlighted`: a path is selected and the node is on it. */
  predicate IsNodeHighlighted<Id(==)>(path: Option<seq<Id>>, id: Id) {
    path.Some? && id in path.value
  }

  /**
   * `isConnectionHighlighted` of grain and fish: a path is selected, both
   * endpoints occur on it, and their first-occurrence indices are 1 apart
   * in either direction.
   */
  predicate IsConnectionHighlighted<Id(==)>(path: Option<seq<Id>>, from: Id, to: Id) {
    path.Some? &&
    var fromIndex := IndexOf(path.value, from);
    var toIndex := IndexOf(path.value, to);
    fromIndex != -1 && toIndex != -1 && Abs(fromIndex - toIndex) == 1
  }

  /** The two ids are neighbours somewhere along `p`, in either order. */
  ghost predicate AdjacentOn<Id>(p: seq<Id>, a: Id, b: Id) {
    exists i :: 0 <= i < |p| - 1 && ((p[i] == a && p[i + 1] == b) || (p[i] == b && p[i + 1] == a))
  }

  /**
   * On a path without repeated nodes, a connection is highlighted exactly when
   * its endpoints are neighbours on the path, whichever way round.
   */
  lemma ConnectionHighlightedIff<Id>(p: seq<Id>, from: Id, to: Id)
    requires NoDup(p)
    ensures IsConnectionHighlighted(Some(p), from, to) <==> AdjacentOn(p, from, to)
  {
    if IsConnectionHighlighted(Some(p), from, to) {
      var fi, ti := IndexOf(p, from), IndexOf(p, to);
      if fi < ti {
        assert p[fi] == from && p[fi + 1] == to;
      } else {
        assert p[ti] == to && p[ti + 1] == from;
      }
    }
    if AdjacentOn(p, from, to) {
      var i :| 0 <= i < |p| - 1 && ((p[i] == from && p[i + 1] == to) || (p[i] == to && p[i + 1] == from));
      IndexOfDistinct(p, i);
      IndexOfDistinct(p, i + 1);
    }
  }

  /** Emphasis of a connection: 0.9 highlighted, 0.2 dimmed by a selection elsewhere, 0.5 neutral. */
  function EmphasisOpacity(highlighted: bool, selectionActive: bool): real {
    if highlighted then 0.9 else if selectionActive then 0.2 else 0.5
  }

  /** `getConnectionStrokeWidth`. */
  function StrokeWidth(highlighted: bool): int {
    if highlighted then 3 else 2
  }

  /** `getConnectionOpacity` of grain and fish. */
  function PathConnectionOpacity<Id(==)>(path: Option<seq<Id>>, from: Id, to: Id): (r: real)
    ensures r == 0.9 <==> IsConnectionHighlighted(path, from, to)
    ensures r == 0.2 <==> path.Some? && !IsConnectionHighlighted(path, from, to)
    ensures r == 0.5 <==> path.None?
  {
    EmphasisOpacity(IsConnectionHighlighted(path, from, to), path.Some?)
  }

  /** `getConnectionStrokeWidth` of grain and fish. */
  function PathStrokeWidth<Id(==)>(path: Option<seq<Id>>, from: Id, to: Id): (r: int)
    ensures r == 3 <==> IsConnectionHighlighted(path, from, to)
    ensures r == 2 <==> !IsConnectionHighlighted(path, from, to)
    ensures path.None? ==> r == 2
  {
    StrokeWidth(IsConnectionHighlighted(path, from, to))
  }

  /** `getNodeOpacity`: full unless a path is selected that avoids the node. */
  function PathNodeOpacity<Id(==)>(path: Option<seq<Id>>, id: Id): (r: real)
    ensures r == 1.0 <==> path.None? || id in path.value
    ensures r == 0.4 <==> path.Some? && id !in path.value
  {
    if path.None? then 1.0 else if IsNodeHighlighted(path, id) then 1.0 else 0.4
  }

  /** `isConnectionHighlighted` of fruits: the selected node is one of the endpoints. */
  predicate IsTouchingSelected<Id(==)>(selected: Option<Id>, from: Id, to: Id) {
    selected == Some(from) || selected == Some(to)
  }

  /** `getConnectionOpacity` of fruits. */
  function NodeConnectionOpacity<Id(==)>(selected: Option<Id>, from: Id, to: Id): (r: real)
    ensures r == 0.9 <==> selected.Some? && (selected.value == from || selected.value == to)
    ensures r == 0.2 <==> selected.Some? && selected.value != from && selected.value != to
    ensures r == 0.5 <==> selected.None?
  {
    EmphasisOpacity(IsTouchingSelected(selected, from, to), selected.Some?)
  }

  /** `getConnectionStrokeWidth` of fruits. */
  function NodeStrokeWidth<Id(==)>(selected: Option<Id>, from: Id, to: Id): (r: int)
    ensures r == 3 <==> selected.Some? && (selected.value == from || selected.value == to)
    ensures r == 2 <==> !(selected.Some? && (selected.value == from || selected.value == to))
  {
    StrokeWidth(IsTouchingSelected(selected, from, to))
  }

  /** The connections list is the chain order[0] -> order[1] -> ... -> order[n-1]. */
  ghost predicate IsChain<Id>(order: seq<Id>, connections: seq<Connection<Id>>) {
    |order| >= 1 && |connections| == |order| - 1 &&
    forall i :: 0 <= i < |connections| ==> connections[i] == Connection(order[i], order[i + 1])
  }

  /** Indices (from `start` on) of the connections touching the selected node. */
  function TouchingIndices<Id(==)>(selected: Option<Id>, connections: seq<Connection<Id>>, start: nat): seq<nat>
    decreases |connections| - start
  {
    if start >= |connections| then []
    else
      (if IsTouchingSelected(selected, connections[start].from, connections[start].to) then [start] else []) +
      TouchingIndices(selected, connections, start + 1)
  }

  /**
   * On a chain of distinct nodes, selecting node k highlights exactly the
   * connection entering it (k-1) and the one leaving it (k): two for an
   * interior node, one for either end.
   */
  lemma ChainHighlight<Id>(order: seq<Id>, connections: seq<Connection<Id>>, k: nat)
    requires NoDup(order) && IsChain(order, connections) && k < |order|
    ensures TouchingIndices(Some(order[k]), connections, 0) ==
            (if k > 0 then [k - 1] else []) + (if k < |connections| then [k] else [])
    ensures |order| >= 2 ==>
            |TouchingIndices(Some(order[k]), connections, 0)| == if k == 0 || k == |order| - 1 then 1 else 2
  {
    ChainHighlightFrom(order, connections, k, 0);
  }

  lemma {:induction false} ChainHighlightFrom<Id>(order: seq<Id>, connections: seq<Connection<Id>>, k: nat, start: nat)
    requires NoDup(order) && IsChain(order, connections) && k < |order| && start <= |connections|
    ensures TouchingIndices(Some(order[k]), connections, start) ==
            (if start <= k - 1 then [k - 1] else []) + (if start <= k < |connections| then [k] else [])
    decreases |connections| - start
  {
    if start < |connections| {
      ChainHighlightFrom(order, connections, k, start + 1);
      var c := connections[start];
      assert c == Connection(order[start], order[start + 1]);
      assert IsTouchingSelected(Some(order[k]), c.from, c.to) <==> start == k || start + 1 == k;
    }
  }

  // ------------------------------------------------------ connector geometry

  datatype Point = Point(x: real, y: real)

  /** The SVG path-data commands the connectors use (M is the path's start). */
  datatype Segment =
    | LineTo(end: Point)
    | QuadTo(control: Point, end: Point)
    | CubicTo(control1: Point, control2: Point, end: Point)

  /** A connector: `Empty` is the `''` drawn for an unresolvable endpoint. */
  datatype PathData = Empty | Path(start: Point, segments: seq<Segment>)

  /** Where the pen is after drawing the path. */
  function EndPoint(d: PathData): Point
    requires d.Path?
  {
    if d.segments == [] then d.start else d.segments[|d.segments| - 1].end
  }

  function RightCentre<Id>(n: Node<Id>): Point {
    Point((n.x + NodeWidth) as real, (n.y + NodeHeight / 2) as real)
  }

  function LeftCentre<Id>(n: Node<Id>): Point {
    Point(n.x as real, (n.y + NodeHeight / 2) as real)
  }

  function BottomCentre<Id>(n: Node<Id>): Point {
    Point((n.x + NodeWidth / 2) as real, (n.y + NodeHeight) as real)
  }

  function TopCentre<Id>(n: Node<Id>): Point {
    Point((n.x + NodeWidth / 2) as real, n.y as real)
  }

  /**
   * The default connector `M x1 y1 C cx1 cy1, cx2 cy2, x2 y2`: from the source's
   * right-centre to the target's left-centre, both control points on the
   * vertical through the horizontal midpoint, the first level with the start
   * and the second level with the end.
   */
  function CubicConnector<Id>(from: Node<Id>, to: Node<Id>): (r: PathData)
    ensures r.Path? && r.start == RightCentre(from) && EndPoint(r) == LeftCentre(to)
    ensures |r.segments| == 1 && r.segments[0].CubicTo?
    ensures var c := r.segments[0];
            c.control1.x == c.control2.x &&
            c.control1.x - r.start.x == EndPoint(r).x - c.control1.x &&
            c.control1.y == r.start.y && c.control2.y == EndPoint(r).y
  {
    var s := RightCentre(from);
    var e := LeftCentre(to);
    var dx := e.x - s.x;
    Path(s, [CubicTo(Point(s.x + dx * 0.5, s.y), Point(s.x + dx * 0.5, e.y), e)])
  }

  /** Nodes at the same height get a connector that is a horizontal line. */
  lemma CubicLevelIsHorizontal<Id>(from: Node<Id>, to: Node<Id>)
    requires from.y == to.y
    ensures var r := CubicConnector(from, to);
            var c := r.segments[0];
            var h := (from.y + NodeHeight / 2) as real;
            r.start.y == h && c.control1.y == h && c.control2.y == h && c.end.y == h
  {
  }

  /** `M x1 y1 L x2 y2` from the source's bottom-centre to the target's top-centre. */
  function StraightConnector<Id>(from: Node<Id>, to: Node<Id>): (r: PathData)
    ensures r.Path? && |r.segments| == 1 && r.segments[0].LineTo?
    ensures r.start == BottomCentre(from) && EndPoint(r) == TopCentre(to)
  {
    Path(BottomCentre(from), [LineTo(TopCentre(to))])
  }

  /** The corner radius of the elbow connector. */
  const ElbowRadius: real := 25.0

  /**
   * The rounded elbow: a horizontal run of 3/10 of the horizontal distance, a
   * quarter-circle-like corner of radius 25 turning towards the target (down
   * when the target is lower, i.e. dy > 0, otherwise up), a vertical run, a
   * second corner turning back to horizontal at the target's height, and a
   * final horizontal run into the target.
   */
  function ElbowConnector<Id>(from: Node<Id>, to: Node<Id>): (r: PathData)
    ensures r.Path? && r.start == RightCentre(from) && EndPoint(r) == LeftCentre(to)
    ensures |r.segments| == 5
    ensures r.segments[0].LineTo? && r.segments[1].QuadTo? && r.segments[2].LineTo? &&
            r.segments[3].QuadTo? && r.segments[4].LineTo?
    // the first run is horizontal and bends 30% of the way across
    ensures r.segments[0].end.y == r.start.y
    ensures r.segments[0].end.x == r.start.x + (EndPoint(r).x - r.start.x) * 0.3
    // each corner's control point sits one radius past the bend, level with the run it leaves or joins
    ensures r.segments[1].control == Point(r.segments[0].end.x + ElbowRadius, r.start.y)
    ensures r.segments[3].control == Point(r.segments[0].end.x + ElbowRadius, EndPoint(r).y)
    // each corner spans exactly one radius in both directions
    ensures r.segments[1].end.x - r.segments[0].end.x == ElbowRadius
    ensures Abs2(r.segments[1].end.y - r.segments[0].end.y) == ElbowRadius
    ensures r.segments[3].end.x - r.segments[2].end.x == ElbowRadius
    ensures Abs2(r.segments[3].end.y - r.segments[2].end.y) == ElbowRadius
    // the middle run is vertical and the last corner lands level with the target
    ensures r.segments[2].end.x == r.segments[1].end.x
    ensures r.segments[3].end.y == EndPoint(r).y
    // the vertical run stops one radius short of the target's height, on the side it comes from
    ensures r.segments[2].end.y == EndPoint(r).y + (if EndPoint(r).y > r.start.y then -ElbowRadius else ElbowRadius)
    // the first corner turns down exactly when the target is lower
    ensures r.segments[1].end.y > r.start.y <==> EndPoint(r).y > r.start.y
  {
    var s := RightCentre(from);
    var e := LeftCentre(to);
    var dx, dy := e.x - s.x, e.y - s.y;
    var bend := s.x + dx * 0.3;
    var rad := ElbowRadius;
    if dy > 0.0 then
      Path(s, [LineTo(Point(bend, s.y)),
               QuadTo(Point(bend + rad, s.y), Point(bend + rad, s.y + rad)),
               LineTo(Point(bend + rad, e.y - rad)),
               QuadTo(Point(bend + rad, e.y), Point(bend + rad * 2.0, e.y)),
               LineTo(e)])
    else
      Path(s, [LineTo(Point(bend, s.y)),
               QuadTo(Point(bend + rad, s.y), Point(bend + rad, s.y - rad)),
               LineTo(Point(bend + rad, e.y + rad)),
               QuadTo(Point(bend + rad, e.y), Point(bend + rad * 2.0, e.y)),
               LineTo(e)])
  }

  function Abs2(v: real): real {
    if v < 0.0 then -v else v
  }

  /**
   * `M x1 y1 Q midX midY, x2 y2`: a single quadratic control point at the
   * horizontal midpoint, 30 units above the start.
   */
  function ArcConnector<Id>(from: Node<Id>, to: Node<Id>): (r: PathData)
    ensures r.Path? && r.start == RightCentre(from) && EndPoint(r) == LeftCentre(to)
    ensures |r.segments| == 1 && r.segments[0].QuadTo?
    ensures var c := r.segments[0].control;
            c.y == r.start.y - 30.0 && c.x - r.start.x == EndPoint(r).x - c.x
  {
    var s := RightCentre(from);
    var e := LeftCentre(to);
    Path(s, [QuadTo(Point((s.x + e.x) / 2.0, s.y - 30.0), e)])
  }
}
