/**
 * The fish case-study component: eleven stages of the Greek aquaculture
 * chain, a shared trunk (fingerlings, transport, aquaculture) that branches
 * into an export route and a domestic route, path-based highlighting and
 * cubic connectors.
 */
module FishCaseStudy {
  import opened Wrappers
  import opened Seqs
  import opened SupplyChain

  datatype NodeType =
    | Fingerlings | Transport1 | Aquaculture | PrimaryProcessing | Transport2 | Retail
    | Consumers1 | SecondaryProcessing | Bigh | Restaurant | Consumers2

  datatype PathName = Export | Domestic

  const Nodes: seq<Node<NodeType>> := [
    Node(Fingerlings, 50, 200),
    Node(Transport1, 220, 200),
    Node(Aquaculture, 390, 200),
    Node(PrimaryProcessing, 580, 200),
    Node(Transport2, 770, 200),
    Node(Retail, 960, 200),
    Node(Consumers1, 1150, 200),
    Node(SecondaryProcessing, 580, 60),
    Node(Bigh, 770, 60),
    Node(Restaurant, 960, 60),
    Node(Consumers2, 1150, 60)
  ]

  const Connections: seq<Connection<NodeType>> := [
    Connection(Fingerlings, Transport1),
    Connection(Transport1, Aquaculture),
    Connection(Aquaculture, PrimaryProcessing),
    Connection(PrimaryProcessing, Transport2),
    Connection(Transport2, Retail),
    Connection(Retail, Consumers1),
    Connection(Aquaculture, SecondaryProcessing),
    Connection(SecondaryProcessing, Bigh),
    Connection(Bigh, Restaurant),
    Connection(Restaurant, Consumers2)
  ]

  function PathIds(p: PathName): seq<NodeType> {
    match p
    case Export => [Fingerlings, Transport1, Aquaculture, SecondaryProcessing, Bigh, Restaurant, Consumers2]
    case Domestic => [Fingerlings, Transport1, Aquaculture, PrimaryProcessing, Transport2, Retail, Consumers1]
  }

  function SelectedIds(selected: Option<PathName>): Option<seq<NodeType>> {
    if selected.None? then None else Some(PathIds(selected.value))
  }

  /**
   * The branch `getConnectionPath` singles out for aquaculture to secondary
   * processing, with its own start, end and control points written out.
   */
  function AquacultureBranch(from: Node<NodeType>, to: Node<NodeType>): PathData {
    var startX := (from.x + NodeWidth) as real;
    var startY := (from.y + NodeHeight / 2) as real;
    var endX := to.x as real;
    var endY := (to.y + NodeHeight / 2) as real;
    var cx := startX + (endX - startX) * 0.5;
    Path(Point(startX, startY), [CubicTo(Point(cx, startY), Point(cx, endY), Point(endX, endY))])
  }

  /** The special branch draws exactly the default cubic connector. */
  lemma AquacultureBranchIsDefault(from: Node<NodeType>, to: Node<NodeType>)
    ensures AquacultureBranch(from, to) == CubicConnector(from, to)
  {
  }

  /** `getConnectionPath` over a node table: `''` for a missing endpoint, otherwise a cubic. */
  function ConnectionPath(nodes: seq<Node<NodeType>>, c: Connection<NodeType>): (r: PathData)
    ensures r.Empty? <==> FindNode(nodes, c.from).None? || FindNode(nodes, c.to).None?
    ensures r.Path? ==> r == CubicConnector(FindNode(nodes, c.from).value, FindNode(nodes, c.to).value)
  {
    var fromNode := FindNode(nodes, c.from);
    var toNode := FindNode(nodes, c.to);
    if fromNode.None? || toNode.None? then Empty
    else if c.from == Aquaculture && c.to == SecondaryProcessing then
      AquacultureBranchIsDefault(fromNode.value, toNode.value);
      AquacultureBranch(fromNode.value, toNode.value)
    else CubicConnector(fromNode.value, toNode.value)
  }

  lemma EveryNodeDeclared(id: NodeType)
    ensures FindNode(Nodes, id).Some?
  {
    var i := match id
      case Fingerlings => 0 case Transport1 => 1 case Aquaculture => 2
      case PrimaryProcessing => 3 case Transport2 => 4 case Retail => 5 case Consumers1 => 6
      case SecondaryProcessing => 7 case Bigh => 8 case Restaurant => 9 case Consumers2 => 10;
    assert Nodes[i].id == id;
  }

  lemma StaticDataConsistent()
    ensures UniqueIds(Nodes)
    ensures EndpointsDeclared(Nodes, Connections)
    ensures forall p :: NoDup(PathIds(p)) && FollowsConnections(PathIds(p), Connections)
  {
    forall k | 0 <= k < |Connections|
      ensures FindNode(Nodes, Connections[k].from).Some? && FindNode(Nodes, Connections[k].to).Some?
    {
      EveryNodeDeclared(Connections[k].from);
      EveryNodeDeclared(Connections[k].to);
    }
  }

  lemma HighlightedIffAdjacent(p: PathName, from: NodeType, to: NodeType)
    ensures IsConnectionHighlighted(SelectedIds(Some(p)), from, to) <==> AdjacentOn(PathIds(p), from, to)
  {
    StaticDataConsistent();
    ConnectionHighlightedIff(PathIds(p), from, to);
  }

  /**
   * The two routes share the trunk: whichever route is selected, the first
   * three stages stay fully visible and the two trunk connections light up.
   */
  lemma SharedTrunk(p: PathName)
    ensures var sel := SelectedIds(Some(p));
            PathNodeOpacity(sel, Fingerlings) == 1.0 && PathNodeOpacity(sel, Transport1) == 1.0 &&
            PathNodeOpacity(sel, Aquaculture) == 1.0 &&
            PathConnectionOpacity(sel, Fingerlings, Transport1) == 0.9 &&
            PathConnectionOpacity(sel, Transport1, Aquaculture) == 0.9
  {
    var q := PathIds(p);
    assert q[0] == Fingerlings && q[1] == Transport1 && q[2] == Aquaculture;
    HighlightedIffAdjacent(p, Fingerlings, Transport1);
    HighlightedIffAdjacent(p, Transport1, Aquaculture);
  }

  /** Every connection of the diagram lies on at least one of the two routes. */
  lemma RoutesCoverConnections(k: int)
    requires 0 <= k < |Connections|
    ensures IsConnectionHighlighted(SelectedIds(Some(Export)), Connections[k].from, Connections[k].to) ||
            IsConnectionHighlighted(SelectedIds(Some(Domestic)), Connections[k].from, Connections[k].to)
  {
    var c := Connections[k];
    var e, d := PathIds(Export), PathIds(Domestic);
    if k < 6 {
      assert c == Connection(d[k], d[k + 1]);
      HighlightedIffAdjacent(Domestic, c.from, c.to);
    } else {
      assert c == Connection(e[k - 4], e[k - 3]);
      HighlightedIffAdjacent(Export, c.from, c.to);
    }
  }

  class FishCaseStudyComponent {
    var hoveredNode: Option<NodeType>
    var selectedNode: Option<NodeType>
    var selectedPath: Option<PathName>
    /** In tenths: 10 is 1.0. */
    var zoom: int

    ghost predicate Valid()
      reads this
    {
      MinZoom <= zoom <= MaxZoom
    }

    constructor()
      ensures Valid()
      ensures hoveredNode == None && selectedNode == None && selectedPath == None && zoom == DefaultZoom
    {
      hoveredNode, selectedNode, selectedPath, zoom := None, None, None, DefaultZoom;
    }

    predicate IsNodeHighlighted(nodeId: NodeType)
      reads this
    {
      SupplyChain.IsNodeHighlighted(SelectedIds(selectedPath), nodeId)
    }

    predicate IsConnectionHighlighted(from: NodeType, to: NodeType)
      reads this
    {
      SupplyChain.IsConnectionHighlighted(SelectedIds(selectedPath), from, to)
    }

    method SelectPath(path: PathName)
      modifies this
      ensures selectedPath == Toggle(old(selectedPath), path)
      ensures hoveredNode == old(hoveredNode) && selectedNode == old(selectedNode) && zoom == old(zoom)
    {
      selectedPath := Toggle(selectedPath, path);
    }

    method OnNodeHover(nodeId: Option<NodeType>)
      modifies this
      ensures hoveredNode == nodeId
      ensures selectedNode == old(selectedNode) && selectedPath == old(selectedPath) && zoom == old(zoom)
    {
      hoveredNode := nodeId;
    }

    method OnNodeClick(nodeId: NodeType)
      modifies this
      ensures selectedNode == Toggle(old(selectedNode), nodeId)
      ensures hoveredNode == old(hoveredNode) && selectedPath == old(selectedPath) && zoom == old(zoom)
    {
      selectedNode := Toggle(selectedNode, nodeId);
    }

    method CloseNodeDetail()
      modifies this
      ensures selectedNode == None
      ensures hoveredNode == old(hoveredNode) && selectedPath == old(selectedPath) && zoom == old(zoom)
    {
      selectedNode := None;
    }

    method ZoomIn()
      requires Valid()
      modifies this
      ensures Valid() && zoom == ZoomedIn(old(zoom))
      ensures hoveredNode == old(hoveredNode) && selectedNode == old(selectedNode) && selectedPath == old(selectedPath)
    {
      zoom := ZoomedIn(zoom);
    }

    method ZoomOut()
      requires Valid()
      modifies this
      ensures Valid() && zoom == ZoomedOut(old(zoom))
      ensures hoveredNode == old(hoveredNode) && selectedNode == old(selectedNode) && selectedPath == old(selectedPath)
    {
      zoom := ZoomedOut(zoom);
    }

    method ResetZoom()
      modifies this
      ensures Valid() && zoom == DefaultZoom
      ensures hoveredNode == old(hoveredNode) && selectedNode == old(selectedNode) && selectedPath == old(selectedPath)
    {
      zoom := DefaultZoom;
    }

    function GetConnectionPath(conn: Connection<NodeType>): (r: PathData)
      ensures r.Path? && r == ConnectionPath(Nodes, conn)
    {
      EveryNodeDeclared(conn.from);
      EveryNodeDeclared(conn.to);
      ConnectionPath(Nodes, conn)
    }

    function GetConnectionOpacity(conn: Connection<NodeType>): (r: real)
      reads this
      ensures r == 0.9 <==> IsConnectionHighlighted(conn.from, conn.to)
      ensures r == 0.2 <==> selectedPath.Some? && !IsConnectionHighlighted(conn.from, conn.to)
      ensures r == 0.5 <==> selectedPath.None?
    {
      PathConnectionOpacity(SelectedIds(selectedPath), conn.from, conn.to)
    }

    function GetConnectionStrokeWidth(conn: Connection<NodeType>): (r: int)
      reads this
      ensures r == 3 <==> IsConnectionHighlighted(conn.from, conn.to)
      ensures r == 2 <==> !IsConnectionHighlighted(conn.from, conn.to)
    {
      PathStrokeWidth(SelectedIds(selectedPath), conn.from, conn.to)
    }

    function GetNodeOpacity(nodeId: NodeType): (r: real)
      reads this
      ensures r == 1.0 <==> selectedPath.None? || nodeId in PathIds(selectedPath.value)
      ensures r == 0.4 <==> selectedPath.Some? && nodeId !in PathIds(selectedPath.value)
    {
      PathNodeOpacity(SelectedIds(selectedPath), nodeId)
    }

    function GetZoomPercent(): (r: int)
      reads this
      requires Valid()
      ensures r as real == (zoom as real / 10.0) * 100.0
      ensures 50 <= r <= 150
    {
      ZoomPercent(zoom)
    }
  }
}
