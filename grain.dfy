/**
 * The grain case-study component: thirteen stages from the farm to the
 * consumer and the livestock farms, fourteen connections, three named routes
 * (export, domestic, feed), path-based highlighting and a connector geometry
 * with three special-cased routings.
 */
module GrainCaseStudy {
  import opened Wrappers
  import opened Seqs
  import opened SupplyChain

  datatype NodeType =
    | Farm | Logistics | ElevatorSea | ElevatorField | Ship | Foreign | Mills
    | Packaging | Distribution | Retailer | Consumer | FeedMills | Livestock

  datatype PathName = Export | Domestic | Feed

  /** The node table, in declaration order, with each node's layout position. */
  const Nodes: seq<Node<NodeType>> := [
    Node(Farm, 40, 200),
    Node(Logistics, 220, 200),
    Node(ElevatorSea, 400, 100),
    Node(ElevatorField, 400, 300),
    Node(Ship, 580, 100),
    Node(Foreign, 760, 100),
    Node(Mills, 760, 300),
    Node(FeedMills, 940, 400),
    Node(Livestock, 1120, 400),
    Node(Packaging, 940, 300),
    Node(Distribution, 1120, 300),
    Node(Retailer, 1300, 300),
    Node(Consumer, 1480, 300)
  ]

  const Connections: seq<Connection<NodeType>> := [
    Connection(Farm, Logistics),
    Connection(Logistics, ElevatorSea),
    Connection(Logistics, ElevatorField),
    Connection(ElevatorSea, Ship),
    Connection(Ship, Foreign),
    Connection(Ship, Mills),
    Connection(ElevatorField, Mills),
    Connection(Foreign, Mills),
    Connection(Mills, Packaging),
    Connection(Packaging, Distribution),
    Connection(Distribution, Retailer),
    Connection(Retailer, Consumer),
    Connection(Mills, FeedMills),
    Connection(FeedMills, Livestock)
  ]

  /** The `paths` record. */
  function PathIds(p: PathName): seq<NodeType> {
    match p
    case Export => [Farm, Logistics, ElevatorSea, Ship, Foreign]
    case Domestic => [Farm, Logistics, ElevatorField, Mills, Packaging, Distribution, Retailer, Consumer]
    case Feed => [Farm, Logistics, ElevatorField, Mills, FeedMills, Livestock]
  }

  /** `this.paths[this.selectedPath]`, or nothing when no path is selected. */
  function SelectedIds(selected: Option<PathName>): Option<seq<NodeType>> {
    if selected.None? then None else Some(PathIds(selected.value))
  }

  /** Foreign buyers to mills: drawn as a straight drop. */
  predicate IsStraightPair(c: Connection<NodeType>) {
    c.from == Foreign && c.to == Mills
  }

  /** Logistics to either elevator: drawn as a rounded elbow. */
  predicate IsElbowPair(c: Connection<NodeType>) {
    c.from == Logistics && (c.to == ElevatorSea || c.to == ElevatorField)
  }

  /** Field elevator to mills: drawn as an arc. */
  predicate IsArcPair(c: Connection<NodeType>) {
    c.from == ElevatorField && c.to == Mills
  }

  /**
   * `getConnectionPath` over a node table: `''` when an endpoint is missing,
   * otherwise the literal (from, to) pairs choose the routing, checked in the
   * order `getConnectionPath` tries them, with the cubic connector as the fallback.
   */
  function ConnectionPath(nodes: seq<Node<NodeType>>, c: Connection<NodeType>): (r: PathData)
    ensures r.Empty? <==> FindNode(nodes, c.from).None? || FindNode(nodes, c.to).None?
    ensures r.Path? && c == Connection(Foreign, Mills) ==>
              r.start == BottomCentre(FindNode(nodes, c.from).value) &&
              EndPoint(r) == TopCentre(FindNode(nodes, c.to).value)
    ensures r.Path? && c != Connection(Foreign, Mills) ==>
              r.start == RightCentre(FindNode(nodes, c.from).value) &&
              EndPoint(r) == LeftCentre(FindNode(nodes, c.to).value)
    // which connector each pair gets, the special pairs in the order `getConnectionPath` tries them
    ensures r.Path? && IsStraightPair(c) ==>
              r == StraightConnector(FindNode(nodes, c.from).value, FindNode(nodes, c.to).value)
    ensures r.Path? && IsElbowPair(c) ==>
              r == ElbowConnector(FindNode(nodes, c.from).value, FindNode(nodes, c.to).value)
    ensures r.Path? && IsArcPair(c) ==>
              r == ArcConnector(FindNode(nodes, c.from).value, FindNode(nodes, c.to).value)
    ensures r.Path? && !IsStraightPair(c) && !IsElbowPair(c) && !IsArcPair(c) ==>
              r == CubicConnector(FindNode(nodes, c.from).value, FindNode(nodes, c.to).value)
  {
    var fromNode := FindNode(nodes, c.from);
    var toNode := FindNode(nodes, c.to);
    if fromNode.None? || toNode.None? then Empty
    else if IsStraightPair(c) then StraightConnector(fromNode.value, toNode.value)
    else if IsElbowPair(c) then ElbowConnector(fromNode.value, toNode.value)
    else if IsArcPair(c) then ArcConnector(fromNode.value, toNode.value)
    else CubicConnector(fromNode.value, toNode.value)
  }

  /** Out of the logistics hub, the elbow to the sea elevator (drawn higher) bends upward. */
  lemma SeaElbowTurnsUp()
    ensures var r := ConnectionPath(Nodes, Connection(Logistics, ElevatorSea));
            r.Path? && |r.segments| == 5 && r.segments[1].end.y < r.start.y
  {
    Located(1);
    Located(2);
    ElbowTurns(Nodes, Connection(Logistics, ElevatorSea), Nodes[1], Nodes[2]);
  }

  /** The elbow to the field elevator (drawn lower) bends downward. */
  lemma FieldElbowTurnsDown()
    ensures var r := ConnectionPath(Nodes, Connection(Logistics, ElevatorField));
            r.Path? && |r.segments| == 5 && r.segments[1].end.y > r.start.y
  {
    Located(1);
    Located(3);
    ElbowTurns(Nodes, Connection(Logistics, ElevatorField), Nodes[1], Nodes[3]);
  }

  /** An elbow's first corner turns down exactly when its target node sits lower. */
  lemma ElbowTurns(nodes: seq<Node<NodeType>>, c: Connection<NodeType>, a: Node<NodeType>, b: Node<NodeType>)
    requires IsElbowPair(c) && FindNode(nodes, c.from) == Some(a) && FindNode(nodes, c.to) == Some(b)
    ensures var r := ConnectionPath(nodes, c);
            r.Path? && |r.segments| == 5 && (r.segments[1].end.y > r.start.y <==> b.y > a.y)
  {
  }

  /** Foreign buyers sit directly above the mills, so that connector is one vertical line. */
  lemma ForeignToMillsIsVertical()
    ensures var r := ConnectionPath(Nodes, Connection(Foreign, Mills));
            r.Path? && |r.segments| == 1 && r.segments[0].LineTo? && r.start.x == EndPoint(r).x
  {
    Located(5);
    Located(6);
    StraightIsVertical(Nodes, Connection(Foreign, Mills), Nodes[5], Nodes[6]);
  }

  /** The straight drop is vertical whenever its two nodes share a column. */
  lemma StraightIsVertical(nodes: seq<Node<NodeType>>, c: Connection<NodeType>, a: Node<NodeType>, b: Node<NodeType>)
    requires IsStraightPair(c) && FindNode(nodes, c.from) == Some(a) && FindNode(nodes, c.to) == Some(b)
    ensures var r := ConnectionPath(nodes, c);
            r.Path? && |r.segments| == 1 && r.segments[0].LineTo? && (r.start.x == EndPoint(r).x <==> a.x == b.x)
  {
  }

  /** The field elevator reaches the mills through one quadratic arc that rises 30 above its start. */
  lemma FieldToMillsArcs()
    ensures var r := ConnectionPath(Nodes, Connection(ElevatorField, Mills));
            r.Path? && |r.segments| == 1 && r.segments[0].QuadTo? &&
            r.segments[0].control.y == r.start.y - 30.0 && r.start.y == EndPoint(r).y
  {
    Located(3);
    Located(6);
    ArcRises(Nodes, Connection(ElevatorField, Mills), Nodes[3], Nodes[6]);
  }

  /** The arc's control point is 30 above its start; the arc ends level when its nodes share a row. */
  lemma ArcRises(nodes: seq<Node<NodeType>>, c: Connection<NodeType>, a: Node<NodeType>, b: Node<NodeType>)
    requires IsArcPair(c) && FindNode(nodes, c.from) == Some(a) && FindNode(nodes, c.to) == Some(b)
    ensures var r := ConnectionPath(nodes, c);
            r.Path? && |r.segments| == 1 && r.segments[0].QuadTo? &&
            r.segments[0].control.y == r.start.y - 30.0 && (r.start.y == EndPoint(r).y <==> a.y == b.y)
  {
  }

  /** With unique ids, `find` locates each node of the table at its own position. */
  lemma Located(i: int)
    requires 0 <= i < |Nodes|
    ensures FindNode(Nodes, Nodes[i].id) == Some(Nodes[i])
  {
    StaticDataConsistent();
    FindNodeUnique(Nodes, i);
  }

  /** Every node id has an entry in the table, so no grain connector is ever `''`. */
  lemma EveryNodeDeclared(id: NodeType)
    ensures FindNode(Nodes, id).Some?
  {
    var i := match id
      case Farm => 0 case Logistics => 1 case ElevatorSea => 2 case ElevatorField => 3
      case Ship => 4 case Foreign => 5 case Mills => 6 case FeedMills => 7 case Livestock => 8
      case Packaging => 9 case Distribution => 10 case Retailer => 11 case Consumer => 12;
    assert Nodes[i].id == id;
  }

  /** Node ids are unique, every connection endpoint is declared, and the routes follow declared connections. */
  lemma StaticDataConsistent()
    ensures UniqueIds(Nodes)
    ensures EndpointsDeclared(Nodes, Connections)
    ensures forall p :: NoDup(PathIds(p)) && FollowsConnections(PathIds(p), Connections)
  {
    forall k | 0 <= k < |Connections|
      ensures FindNode(Nodes, Connections[k].from).Some? && FindNode(Nodes, Connections[k].to).Some?
    {
      EveryNodeDeclared(Connections[k].from);
      EveryNodeDeclared(Connections[k].to);
    }
  }

  /** On each route, a connection is highlighted exactly when its endpoints are neighbours on it. */
  lemma HighlightedIffAdjacent(p: PathName, from: NodeType, to: NodeType)
    ensures IsConnectionHighlighted(SelectedIds(Some(p)), from, to) <==> AdjacentOn(PathIds(p), from, to)
  {
    StaticDataConsistent();
    ConnectionHighlightedIff(PathIds(p), from, to);
  }

  /** With the export route selected: farm stays, mills fades, farm->logistics lights up, mills->feed-mills dims. */
  lemma ExportScenario()
    ensures var sel := SelectedIds(Some(Export));
            PathNodeOpacity(sel, Farm) == 1.0 && PathNodeOpacity(sel, Mills) == 0.4 &&
            PathConnectionOpacity(sel, Farm, Logistics) == 0.9 && PathStrokeWidth(sel, Farm, Logistics) == 3 &&
            PathConnectionOpacity(sel, Mills, FeedMills) == 0.2 && PathStrokeWidth(sel, Mills, FeedMills) == 2
  {
    var p := PathIds(Export);
    HighlightedIffAdjacent(Export, Farm, Logistics);
    assert p[0] == Farm && p[1] == Logistics;
    assert Mills !in p;
  }

  /** The component's selection state and the queries over it. */
  class GrainCaseStudyComponent {
    var hoveredNode: Option<NodeType>
    var selectedNode: Option<NodeType>
    var selectedPath: Option<PathName>
    /** In tenths: 10 is 1.0. */
    var zoom: int

    ghost predicate Valid()
      reads this
    {
      MinZoom <= zoom <= MaxZoom
    }

    constructor()
      ensures Valid()
      ensures hoveredNode == None && selectedNode == None && selectedPath == None && zoom == DefaultZoom
    {
      hoveredNode, selectedNode, selectedPath, zoom := None, None, None, DefaultZoom;
    }

    /** `isNodeHighlighted`. */
    predicate IsNodeHighlighted(nodeId: NodeType)
      reads this
    {
      SupplyChain.IsNodeHighlighted(SelectedIds(selectedPath), nodeId)
    }

    /** `isConnectionHighlighted`. */
    predicate IsConnectionHighlighted(from: NodeType, to: NodeType)
      reads this
    {
      SupplyChain.IsConnectionHighlighted(SelectedIds(selectedPath), from, to)
    }

    /** `selectPath`: toggles the selected route; nothing else changes. */
    method SelectPath(path: PathName)
      modifies this
      ensures selectedPath == Toggle(old(selectedPath), path)
      ensures hoveredNode == old(hoveredNode) && selectedNode == old(selectedNode) && zoom == old(zoom)
    {
      selectedPath := Toggle(selectedPath, path);
    }

    /** `onNodeHover`: always records the node under the mouse (or none). */
    method OnNodeHover(nodeId: Option<NodeType>)
      modifies this
      ensures hoveredNode == nodeId
      ensures selectedNode == old(selectedNode) && selectedPath == old(selectedPath) && zoom == old(zoom)
    {
      hoveredNode := nodeId;
    }

    /** `onNodeClick`: toggles the selected node. */
    method OnNodeClick(nodeId: NodeType)
      modifies this
      ensures selectedNode == Toggle(old(selectedNode), nodeId)
      ensures hoveredNode == old(hoveredNode) && selectedPath == old(selectedPath) && zoom == old(zoom)
    {
      selectedNode := Toggle(selectedNode, nodeId);
    }

    /** `closeNodeDetail`: clears the selected node. */
    method CloseNodeDetail()
      modifies this
      ensures selectedNode == None
      ensures hoveredNode == old(hoveredNode) && selectedPath == old(selectedPath) && zoom == old(zoom)
    {
      selectedNode := None;
    }

    method ZoomIn()
      requires Valid()
      modifies this
      ensures Valid() && zoom == ZoomedIn(old(zoom))
      ensures hoveredNode == old(hoveredNode) && selectedNode == old(selectedNode) && selectedPath == old(selectedPath)
    {
      zoom := ZoomedIn(zoom);
    }

    method ZoomOut()
      requires Valid()
      modifies this
      ensures Valid() && zoom == ZoomedOut(old(zoom))
      ensures hoveredNode == old(hoveredNode) && selectedNode == old(selectedNode) && selectedPath == old(selectedPath)
    {
      zoom := ZoomedOut(zoom);
    }

    method ResetZoom()
      modifies this
      ensures Valid() && zoom == DefaultZoom
      ensures hoveredNode == old(hoveredNode) && selectedNode == old(selectedNode) && selectedPath == old(selectedPath)
    {
      zoom := DefaultZoom;
    }

    /** `getConnectionPath` over the component's node table. */
    function GetConnectionPath(conn: Connection<NodeType>): (r: PathData)
      ensures r.Path? && r == ConnectionPath(Nodes, conn)
    {
      EveryNodeDeclared(conn.from);
      EveryNodeDeclared(conn.to);
      ConnectionPath(Nodes, conn)
    }

    /** `getConnectionOpacity`. */
    function GetConnectionOpacity(conn: Connection<NodeType>): (r: real)
      reads this
      ensures r == 0.9 <==> IsConnectionHighlighted(conn.from, conn.to)
      ensures r == 0.2 <==> selectedPath.Some? && !IsConnectionHighlighted(conn.from, conn.to)
      ensures r == 0.5 <==> selectedPath.None?
    {
      PathConnectionOpacity(SelectedIds(selectedPath), conn.from, conn.to)
    }

    /** `getConnectionStrokeWidth`. */
    function GetConnectionStrokeWidth(conn: Connection<NodeType>): (r: int)
      reads this
      ensures r == 3 <==> IsConnectionHighlighted(conn.from, conn.to)
      ensures r == 2 <==> !IsConnectionHighlighted(conn.from, conn.to)
    {
      PathStrokeWidth(SelectedIds(selectedPath), conn.from, conn.to)
    }

    /** `getNodeOpacity`. */
    function GetNodeOpacity(nodeId: NodeType): (r: real)
      reads this
      ensures r == 1.0 <==> selectedPath.None? || nodeId in PathIds(selectedPath.value)
      ensures r == 0.4 <==> selectedPath.Some? && nodeId !in PathIds(selectedPath.value)
    {
      PathNodeOpacity(SelectedIds(selectedPath), nodeId)
    }

    /** `getZoomPercent`. */
    function GetZoomPercent(): (r: int)
      reads this
      requires Valid()
      ensures r as real == (zoom as real / 10.0) * 100.0
      ensures 50 <= r <= 150
    {
      ZoomPercent(zoom)
    }
  }
}
