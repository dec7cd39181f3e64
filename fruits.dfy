/**
 * The fruits & vegetables case-study component: a single eight-stage chain
 * from the farm to the consumers, all drawn on one row. It has no route
 * selection; a clicked node highlights the connections that touch it.
 */
module FruitsCaseStudy {
  import opened Wrappers
  import opened Seqs
  import opened SupplyChain

  datatype NodeType =
    | Farm | BulkTransport | Processing | Packaging | Wholesale | Logistics | Retailer | Consumers

  const Nodes: seq<Node<NodeType>> := [
    Node(Farm, 50, 180),
    Node(BulkTransport, 200, 180),
    Node(Processing, 350, 180),
    Node(Packaging, 500, 180),
    Node(Wholesale, 650, 180),
    Node(Logistics, 800, 180),
    Node(Retailer, 950, 180),
    Node(Consumers, 1100, 180)
  ]

  const Connections: seq<Connection<NodeType>> := [
    Connection(Farm, BulkTransport),
    Connection(BulkTransport, Processing),
    Connection(Processing, Packaging),
    Connection(Packaging, Wholesale),
    Connection(Wholesale, Logistics),
    Connection(Logistics, Retailer),
    Connection(Retailer, Consumers)
  ]

  /** The stages in chain order. */
  const Order: seq<NodeType> := [Farm, BulkTransport, Processing, Packaging, Wholesale, Logistics, Retailer, Consumers]

  /** `getConnectionPath` over a node table: `''` for a missing endpoint, otherwise a cubic. */
  function ConnectionPath(nodes: seq<Node<NodeType>>, c: Connection<NodeType>): (r: PathData)
    ensures r.Empty? <==> FindNode(nodes, c.from).None? || FindNode(nodes, c.to).None?
    ensures r.Path? ==> r == CubicConnector(FindNode(nodes, c.from).value, FindNode(nodes, c.to).value)
  {
    var fromNode := FindNode(nodes, c.from);
    var toNode := FindNode(nodes, c.to);
    if fromNode.None? || toNode.None? then Empty else CubicConnector(fromNode.value, toNode.value)
  }

  lemma EveryNodeDeclared(id: NodeType)
    ensures FindNode(Nodes, id).Some?
  {
    var i := match id
      case Farm => 0 case BulkTransport => 1 case Processing => 2 case Packaging => 3
      case Wholesale => 4 case Logistics => 5 case Retailer => 6 case Consumers => 7;
    assert Nodes[i].id == id;
  }

  /** The node table has unique ids and declares every connection endpoint. */
  lemma StaticDataConsistent()
    ensures UniqueIds(Nodes)
    ensures EndpointsDeclared(Nodes, Connections)
  {
    forall k | 0 <= k < |Connections|
      ensures FindNode(Nodes, Connections[k].from).Some? && FindNode(Nodes, Connections[k].to).Some?
    {
      EveryNodeDeclared(Connections[k].from);
      EveryNodeDeclared(Connections[k].to);
    }
  }

  /** The connections form the chain of distinct stages in `Order`. */
  lemma ConnectionsFormChain()
    ensures NoDup(Order) && IsChain(Order, Connections)
  {
    forall i | 0 <= i < |Connections|
      ensures Connections[i] == Connection(Order[i], Order[i + 1])
    {
      match i
      case 0 => case 1 => case 2 => case 3 => case 4 => case 5 => case 6 =>
    }
  }

  /** All stages sit on one row, so any connector between two of them is a level curve at height 180 + 24. */
  lemma ConnectorsAreLevel(c: Connection<NodeType>)
    ensures var r := ConnectionPath(Nodes, c);
            r.Path? && r.start.y == 204.0 && EndPoint(r).y == 204.0 &&
            r.segments[0].control1.y == 204.0 && r.segments[0].control2.y == 204.0
  {
    OnOneRow(c.from);
    OnOneRow(c.to);
    var a := FindNode(Nodes, c.from).value;
    var b := FindNode(Nodes, c.to).value;
    FoundEndpointsGiveCubic(c);
    RowCubic(a, b);
  }

  lemma FoundEndpointsGiveCubic(c: Connection<NodeType>)
    requires FindNode(Nodes, c.from).Some? && FindNode(Nodes, c.to).Some?
    ensures ConnectionPath(Nodes, c) == CubicConnector(FindNode(Nodes, c.from).value, FindNode(Nodes, c.to).value)
  {
  }

  /** A cubic between two nodes of the row stays at height 204. */
  lemma RowCubic(a: Node<NodeType>, b: Node<NodeType>)
    requires a.y == 180 && b.y == 180
    ensures var r := CubicConnector(a, b);
            r.Path? && r.start.y == 204.0 && EndPoint(r).y == 204.0 &&
            r.segments[0].control1.y == 204.0 && r.segments[0].control2.y == 204.0
  {
    CubicLevelIsHorizontal(a, b);
  }

  /** Every stage is found in the table, drawn at height 180. */
  lemma OnOneRow(id: NodeType)
    ensures FindNode(Nodes, id).Some? && FindNode(Nodes, id).value.y == 180
  {
    EveryNodeDeclared(id);
    FoundNodeIsListed(Nodes, id);
  }

  /**
   * Selecting the stage at position k of the chain highlights exactly the
   * connection entering it and the one leaving it: one at either end of the
   * chain, two in between.
   */
  lemma SelectionHighlightsNeighbours(k: nat)
    requires k < |Order|
    ensures TouchingIndices(Some(Order[k]), Connections, 0) ==
            (if k > 0 then [k - 1] else []) + (if k < |Connections| then [k] else [])
    ensures |TouchingIndices(Some(Order[k]), Connections, 0)| == if k == 0 || k == 7 then 1 else 2
  {
    ConnectionsFormChain();
    ChainHighlight(Order, Connections, k);
  }

  /** With processing selected: bulk-transport->processing lights up, wholesale->logistics dims. */
  lemma ProcessingScenario()
    ensures NodeConnectionOpacity(Some(Processing), BulkTransport, Processing) == 0.9
    ensures NodeStrokeWidth(Some(Processing), BulkTransport, Processing) == 3
    ensures NodeConnectionOpacity(Some(Processing), Wholesale, Logistics) == 0.2
    ensures NodeStrokeWidth(Some(Processing), Wholesale, Logistics) == 2
  {
  }

  class FruitsCaseStudyComponent {
    var hoveredNode: Option<NodeType>
    var selectedNode: Option<NodeType>
    /** In tenths: 10 is 1.0. */
    var zoom: int

    ghost predicate Valid()
      reads this
    {
      MinZoom <= zoom <= MaxZoom
    }

    constructor()
      ensures Valid()
      ensures hoveredNode == None && selectedNode == None && zoom == DefaultZoom
    {
      hoveredNode, selectedNode, zoom := None, None, DefaultZoom;
    }

    /** `isConnectionHighlighted`: the selected node is one of the endpoints. */
    predicate IsConnectionHighlighted(from: NodeType, to: NodeType)
      reads this
    {
      IsTouchingSelected(selectedNode, from, to)
    }

    method OnNodeHover(nodeId: Option<NodeType>)
      modifies this
      ensures hoveredNode == nodeId
      ensures selectedNode == old(selectedNode) && zoom == old(zoom)
    {
      hoveredNode := nodeId;
    }

    method OnNodeClick(nodeId: NodeType)
      modifies this
      ensures selectedNode == Toggle(old(selectedNode), nodeId)
      ensures hoveredNode == old(hoveredNode) && zoom == old(zoom)
    {
      selectedNode := Toggle(selectedNode, nodeId);
    }

    method CloseNodeDetail()
      modifies this
      ensures selectedNode == None
      ensures hoveredNode == old(hoveredNode) && zoom == old(zoom)
    {
      selectedNode := None;
    }

    method ZoomIn()
      requires Valid()
      modifies this
      ensures Valid() && zoom == ZoomedIn(old(zoom))
      ensures hoveredNode == old(hoveredNode) && selectedNode == old(selectedNode)
    {
      zoom := ZoomedIn(zoom);
    }

    method ZoomOut()
      requires Valid()
      modifies this
      ensures Valid() && zoom == ZoomedOut(old(zoom))
      ensures hoveredNode == old(hoveredNode) && selectedNode == old(selectedNode)
    {
      zoom := ZoomedOut(zoom);
    }

    method ResetZoom()
      modifies this
      ensures Valid() && zoom == DefaultZoom
      ensures hoveredNode == old(hoveredNode) && selectedNode == old(selectedNode)
    {
      zoom := DefaultZoom;
    }

    function GetConnectionPath(conn: Connection<NodeType>): (r: PathData)
      ensures r.Path? && r == ConnectionPath(Nodes, conn)
    {
      EveryNodeDeclared(conn.from);
      EveryNodeDeclared(conn.to);
      ConnectionPath(Nodes, conn)
    }

    function GetConnectionOpacity(conn: Connection<NodeType>): (r: real)
      reads this
      ensures r == 0.9 <==> IsConnectionHighlighted(conn.from, conn.to)
      ensures r == 0.2 <==> selectedNode.Some? && !IsConnectionHighlighted(conn.from, conn.to)
      ensures r == 0.5 <==> selectedNode.None?
    {
      NodeConnectionOpacity(selectedNode, conn.from, conn.to)
    }

    function GetConnectionStrokeWidth(conn: Connection<NodeType>): (r: int)
      reads this
      ensures r == 3 <==> IsConnectionHighlighted(conn.from, conn.to)
      ensures r == 2 <==> !IsConnectionHighlighted(conn.from, conn.to)
    {
      NodeStrokeWidth(selectedNode, conn.from, conn.to)
    }

    function GetZoomPercent(): (r: int)
      reads this
      requires Valid()
      ensures r as real == (zoom as real / 10.0) * 100.0
      ensures 50 <= r <= 150
    {
      ZoomPercent(zoom)
    }
  }
}
