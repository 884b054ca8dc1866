/** Query-result post-processing (server/nlq/postprocess.ts): graph
    extraction, graph trimming, evidence rows and result trimming. The
    configured ceilings are parameters. Node identifiers are JavaScript
    values compared by value, as a `Set` compares the strings and numbers a
    result carries. */
module PostProcess {
  import opened Wrappers
  import opened Text
  import opened Js

  datatype GraphNode = GraphNode(id: Json, nodeLabel: Json, nodeType: Json, properties: Json)

  datatype GraphEdge = GraphEdge(id: string, source: Json, target: Json, edgeType: string, properties: Json)

  datatype GraphData = GraphData(nodes: seq<GraphNode>, edges: seq<GraphEdge>)

  /** The extractor's working state: the emitted lists and the id sets it
      checks before emitting. */
  datatype Graph = Graph(nodes: seq<GraphNode>, edges: seq<GraphEdge>, nodeIds: set<Json>, edgeIds: set<string>)

  const EmptyGraph: Graph := Graph([], [], {}, {})

  const DefaultPharmacopoeiaId: string := "2998"
  const DefaultPharmacopoeiaLabel: string := "中华人民共和国药典2025版"
  const Medicine: Json := JStr("Medicine")
  const Pharmacopoeia: Json := JStr("Pharmacopoeia")

  /** `item.doc_id || item.id`. */
  function NodeIdOf(item: Value): Value {
    Or(Get(item, "doc_id"), Get(item, "id"))
  }

  /** The edge id `${source}-${type}-${target}`; evidence rows build the same text. */
  function EdgeId(source: Value, edgeType: string, target: Value): string {
    ToJsString(source) + "-" + edgeType + "-" + ToJsString(target)
  }

  predicate HasNode(nodes: seq<GraphNode>, id: Json) {
    exists i :: 0 <= i < |nodes| && nodes[i].id == id
  }

  predicate HasEdge(edges: seq<GraphEdge>, id: string) {
    exists i :: 0 <= i < |edges| && edges[i].id == id
  }

  predicate NodeIdsDistinct(nodes: seq<GraphNode>) {
    forall i, j :: 0 <= i < j < |nodes| ==> nodes[i].id != nodes[j].id
  }

  predicate EdgeIdsDistinct(edges: seq<GraphEdge>) {
    forall i, j :: 0 <= i < j < |edges| ==> edges[i].id != edges[j].id
  }

  predicate EdgeFormat(e: GraphEdge) {
    e.id == EdgeId(Some(e.source), e.edgeType, Some(e.target))
  }

  /** What the source promises of an extracted graph: distinct node ids,
      distinct edge ids in the `source-type-target` format, and no dangling edge. */
  predicate WellFormed(g: GraphData) {
    && (forall i :: 0 <= i < |g.nodes| ==> NodeShaped(g.nodes[i]))
    && NodeIdsDistinct(g.nodes)
    && EdgeIdsDistinct(g.edges)
    && (forall i :: 0 <= i < |g.edges| ==> EdgeFormat(g.edges[i]))
    && (forall i :: 0 <= i < |g.edges| ==>
          HasNode(g.nodes, g.edges[i].source) && HasNode(g.nodes, g.edges[i].target))
  }

  /** A node is an entity, with id `doc_id || id` and label `name || id`, or a
      Pharmacopoeia node, with id `id || "2998"` and label `name` or the default title. */
  predicate NodeShaped(n: GraphNode) {
    var props := Some(n.properties);
    || (NodeIdOf(props) == Some(n.id) && Truthy(Some(n.id))
        && n.nodeLabel == Or(Get(props, "name"), Some(n.id)).value)
    || (n.nodeType == Pharmacopoeia
        && n.id == Or(Get(props, "id"), Some(JStr(DefaultPharmacopoeiaId))).value
        && n.nodeLabel == Or(Get(props, "name"), Some(JStr(DefaultPharmacopoeiaLabel))).value)
  }

  /** The extractor's state agrees with its id sets, and what it emitted is well formed. */
  predicate Consistent(g: Graph) {
    NodesConsistent(g.nodes, g.nodeIds) && EdgesConsistent(g.edges, g.edgeIds, g.nodeIds)
  }

  /** The node list is well shaped, has distinct ids, and `nodeIds` is exactly its ids. */
  predicate NodesConsistent(nodes: seq<GraphNode>, nodeIds: set<Json>) {
    && (forall i :: 0 <= i < |nodes| ==> NodeShaped(nodes[i]))
    && (forall i :: 0 <= i < |nodes| ==> nodes[i].id in nodeIds)
    && (forall x :: x in nodeIds ==> HasNode(nodes, x))
    && NodeIdsDistinct(nodes)
  }

  /** The edge list has distinct, well-formatted ids, `edgeIds` is exactly
      its ids, and both ends of each edge are in `nodeIds`. */
  predicate EdgesConsistent(edges: seq<GraphEdge>, edgeIds: set<string>, nodeIds: set<Json>) {
    && (forall i :: 0 <= i < |edges| ==> edges[i].id in edgeIds)
    && (forall x :: x in edgeIds ==> HasEdge(edges, x))
    && EdgeIdsDistinct(edges)
    && (forall i :: 0 <= i < |edges| ==> EdgeFormat(edges[i]))
    && (forall i :: 0 <= i < |edges| ==> edges[i].source in nodeIds && edges[i].target in nodeIds)
  }

  /** `h` grew from `g`: the emitted lists only get longer and the sets only bigger. */
  predicate Extends(g: Graph, h: Graph) {
    g.nodes <= h.nodes && g.edges <= h.edges && g.nodeIds <= h.nodeIds && g.edgeIds <= h.edgeIds
  }

  // ---------------------------------------------------------------------
  // extractGraphFromResult, as functions of the state

  /** Emits a node `id`, labelled and typed, unless the id was seen already. */
  function EmitNode(g: Graph, id: Json, nodeLabel: Json, nodeType: Json, properties: Json): Graph {
    if id in g.nodeIds then g
    else g.(nodeIds := g.nodeIds + {id}, nodes := g.nodes + [GraphNode(id, nodeLabel, nodeType, properties)])
  }

  /** `addNode`: items without a truthy `doc_id`/`id` are skipped, and a known id is ignored. */
  function AddNodeF(g: Graph, item: Value, nodeType: Json): Graph {
    var id := NodeIdOf(item);
    if !Truthy(item) || !Truthy(id) then g
    else EmitNode(g, id.value, Or(Get(item, "name"), id).value, nodeType, item.value)
  }

  /** `addEdge`: emits the edge unless its id was seen already. */
  function AddEdgeF(g: Graph, source: Json, target: Json, edgeType: string, properties: Json): Graph {
    var id := EdgeId(Some(source), edgeType, Some(target));
    if id in g.edgeIds then g
    else g.(edgeIds := g.edgeIds + {id}, edges := g.edges + [GraphEdge(id, source, target, edgeType, properties)])
  }

  /** The Pharmacopoeia node and BELONGS_TO edge of a Medicine entity. */
  function PharmacopoeiaF(g: Graph, entity: Value, nodeType: Json, entityId: Value): Graph {
    var ph := Get(entity, "pharmacopoeia");
    if nodeType == Medicine && Truthy(ph) then
      var pharmId := Or(Get(ph, "id"), Some(JStr(DefaultPharmacopoeiaId))).value;
      var caption := Or(Get(ph, "name"), Some(JStr(DefaultPharmacopoeiaLabel))).value;
      var g1 := EmitNode(g, pharmId, caption, Pharmacopoeia, ph.value);
      if Truthy(entityId) then AddEdgeF(g1, entityId.value, pharmId, "BELONGS_TO", JObj([])) else g1
    else g
  }

  /** One element of a `refersTo`/`relatedByCategory` list. */
  function LinkOneF(g: Graph, entityId: Value, item: Json, edgeType: string, properties: Json): Graph {
    var itemId := NodeIdOf(Some(item));
    if Truthy(Some(item)) && Truthy(itemId) then
      var g1 := AddNodeF(g, Some(item), Medicine);
      if Truthy(entityId) then AddEdgeF(g1, entityId.value, itemId.value, edgeType, properties) else g1
    else g
  }

  /** The `forEach` over a `refersTo`/`relatedByCategory` list, left to right. */
  function LinkF(g: Graph, entityId: Value, items: seq<Json>, edgeType: string, properties: Json): Graph {
    if items == [] then g
    else LinkOneF(LinkF(g, entityId, items[..|items| - 1], edgeType, properties), entityId, items[|items| - 1], edgeType, properties)
  }

  const ReferLabel: Json := JObj([("label", JStr("引用"))])
  const RelatedLabel: Json := JObj([("label", JStr("同类别"))])

  /** The array under `key` of a Medicine entity, or none. */
  function LinkedItems(entity: Value, nodeType: Json, key: string): seq<Json> {
    if nodeType == Medicine then ArrayUnder(entity, key) else []
  }

  /** The array under `key`, or none when it is falsy or not an array. */
  function ArrayUnder(v: Value, key: string): seq<Json> {
    var a := Get(v, key);
    if Truthy(a) && IsArray(a) then a.value.items else []
  }

  /** `processEntity`. */
  function ProcessEntityF(g: Graph, entity: Value, nodeType: Json): Graph {
    if !Truthy(entity) then g
    else
      var entityId := NodeIdOf(entity);
      var g1 := PharmacopoeiaF(AddNodeF(g, entity, nodeType), entity, nodeType, entityId);
      var g2 := LinkF(g1, entityId, LinkedItems(entity, nodeType, "refersTo"), "REFER_TO", ReferLabel);
      LinkF(g2, entityId, LinkedItems(entity, nodeType, "relatedByCategory"), "RELATED", RelatedLabel)
  }

  /** The type hint a key gives to the values under it. */
  function HintFor(key: string, parentType: Option<string>): Option<string> {
    if key == "medicines" || key == "Medicine" then Some("Medicine")
    else if key == "volumes" || key == "Volume" then Some("Volume")
    else if key == "categories" || key == "Category" then Some("Category")
    else parentType
  }

  function HintValue(parentType: Option<string>): Value {
    if parentType.Some? then Some(JStr(parentType.value)) else None
  }

  /** The type of an entity: `__typename || parentType || "Medicine"`. */
  function EntityType(obj: Json, parentType: Option<string>): Json {
    Or(Get(Some(obj), "__typename"), Or(HintValue(parentType), Some(Medicine))).value
  }

  /** `traverse`: non-objects are ignored, arrays are walked element by element,
      objects with an id are entities and are not descended into, other
      objects are walked entry by entry. */
  function TraverseF(g: Graph, obj: Json, parentType: Option<string>): Graph
    decreases obj, 1
  {
    match obj
    case JArr(items) => TraverseItemsF(g, obj, items, parentType)
    case JObj(fields) =>
      if Truthy(NodeIdOf(Some(obj))) then ProcessEntityF(g, Some(obj), EntityType(obj, parentType))
      else TraverseFieldsF(g, obj, fields, parentType)
    case _ => g
  }

  function TraverseItemsF(g: Graph, ghost parent: Json, items: seq<Json>, parentType: Option<string>): Graph
    requires forall i :: 0 <= i < |items| ==> items[i] < parent
    decreases parent, 0, |items|
  {
    if items == [] then g
    else TraverseF(TraverseItemsF(g, parent, items[..|items| - 1], parentType), items[|items| - 1], parentType)
  }

  function TraverseFieldsF(g: Graph, ghost parent: Json, fields: seq<(string, Json)>, parentType: Option<string>): Graph
    requires forall i :: 0 <= i < |fields| ==> fields[i].1 < parent
    decreases parent, 0, |fields|
  {
    if fields == [] then g
    else
      var last := fields[|fields| - 1];
      TraverseF(TraverseFieldsF(g, parent, fields[..|fields| - 1], parentType), last.1, HintFor(last.0, parentType))
  }

  /** The graph `extractGraphFromResult` returns. */
  function ExtractF(result: Value): GraphData {
    var g := if result.Some? then TraverseF(EmptyGraph, result.value, None) else EmptyGraph;
    GraphData(g.nodes, g.edges)
  }

  // ---------------------------------------------------------------------
  // The extractor keeps its state consistent

  lemma HasNodeAppend(nodes: seq<GraphNode>, n: GraphNode, x: Json)
    requires HasNode(nodes, x) || x == n.id
    ensures HasNode(nodes + [n], x)
  {
    if x == n.id {
      assert (nodes + [n])[|nodes|] == n;
    } else {
      var i :| 0 <= i < |nodes| && nodes[i].id == x;
      assert (nodes + [n])[i] == nodes[i];
    }
  }

  lemma EmitNodeConsistent(g: Graph, id: Json, nodeLabel: Json, nodeType: Json, properties: Json)
    requires Consistent(g) && NodeShaped(GraphNode(id, nodeLabel, nodeType, properties))
    ensures Consistent(EmitNode(g, id, nodeLabel, nodeType, properties))
    ensures Extends(g, EmitNode(g, id, nodeLabel, nodeType, properties))
    ensures id in EmitNode(g, id, nodeLabel, nodeType, properties).nodeIds
  {
    if id !in g.nodeIds {
      var h := EmitNode(g, id, nodeLabel, nodeType, properties);
      var n := GraphNode(id, nodeLabel, nodeType, properties);
      forall x | x in h.nodeIds ensures HasNode(h.nodes, x) {
        HasNodeAppend(g.nodes, n, x);
      }
      assert h.nodes[|g.nodes|] == n;
      EdgesConsistentGrow(g.edges, g.edgeIds, g.nodeIds, h.nodeIds);
    }
  }

  lemma AddNodeConsistent(g: Graph, item: Value, nodeType: Json)
    requires Consistent(g)
    ensures Consistent(AddNodeF(g, item, nodeType))
    ensures Extends(g, AddNodeF(g, item, nodeType))
    ensures Truthy(item) && Truthy(NodeIdOf(item)) ==> NodeIdOf(item).value in AddNodeF(g, item, nodeType).nodeIds
  {
    var id := NodeIdOf(item);
    if Truthy(item) && Truthy(id) {
      EmitNodeConsistent(g, id.value, Or(Get(item, "name"), id).value, nodeType, item.value);
    }
  }

  /** The first occurrence of an id wins: an item whose id was already
      emitted changes nothing, so the earlier node is kept and not merged. */
  lemma AddNodeKnownIgnored(g: Graph, item: Value, nodeType: Json)
    requires Truthy(NodeIdOf(item)) && NodeIdOf(item).value in g.nodeIds
    ensures AddNodeF(g, item, nodeType) == g
  {
  }

  lemma AppendEdge(edges: seq<GraphEdge>, edgeIds: set<string>, nodeIds: set<Json>, e: GraphEdge)
    requires EdgesConsistent(edges, edgeIds, nodeIds)
    requires e.id !in edgeIds && EdgeFormat(e) && e.source in nodeIds && e.target in nodeIds
    ensures EdgesConsistent(edges + [e], edgeIds + {e.id}, nodeIds)
  {
    AppendEdgeIds(edges, edgeIds, nodeIds, e);
    AppendEdgeShape(edges, edgeIds, nodeIds, e);
  }

  lemma AppendEdgeIds(edges: seq<GraphEdge>, edgeIds: set<string>, nodeIds: set<Json>, e: GraphEdge)
    requires EdgesConsistent(edges, edgeIds, nodeIds) && e.id !in edgeIds
    ensures forall i :: 0 <= i < |edges + [e]| ==> (edges + [e])[i].id in edgeIds + {e.id}
    ensures forall x :: x in edgeIds + {e.id} ==> HasEdge(edges + [e], x)
    ensures EdgeIdsDistinct(edges + [e])
  {
    var h := edges + [e];
    assert forall i :: 0 <= i < |edges| ==> h[i] == edges[i];
    assert h[|edges|] == e;
    forall x | x in edgeIds + {e.id} ensures HasEdge(h, x) {
      if x != e.id {
        var i :| 0 <= i < |edges| && edges[i].id == x;
        assert h[i].id == x;
      }
    }
  }

  lemma AppendEdgeShape(edges: seq<GraphEdge>, edgeIds: set<string>, nodeIds: set<Json>, e: GraphEdge)
    requires EdgesConsistent(edges, edgeIds, nodeIds)
    requires EdgeFormat(e) && e.source in nodeIds && e.target in nodeIds
    ensures forall i :: 0 <= i < |edges + [e]| ==> EdgeFormat((edges + [e])[i])
    ensures forall i :: 0 <= i < |edges + [e]| ==> (edges + [e])[i].source in nodeIds && (edges + [e])[i].target in nodeIds
  {
    var h := edges + [e];
    assert forall i :: 0 <= i < |edges| ==> h[i] == edges[i];
    assert h[|edges|] == e;
  }

  lemma EdgesConsistentGrow(edges: seq<GraphEdge>, edgeIds: set<string>, nodeIds: set<Json>, more: set<Json>)
    requires EdgesConsistent(edges, edgeIds, nodeIds) && nodeIds <= more
    ensures EdgesConsistent(edges, edgeIds, more)
  {
  }

  lemma AddEdgeConsistent(g: Graph, source: Json, target: Json, edgeType: string, properties: Json)
    requires Consistent(g) && source in g.nodeIds && target in g.nodeIds
    ensures Consistent(AddEdgeF(g, source, target, edgeType, properties))
    ensures Extends(g, AddEdgeF(g, source, target, edgeType, properties))
  {
    var id := EdgeId(Some(source), edgeType, Some(target));
    if id !in g.edgeIds {
      AppendEdge(g.edges, g.edgeIds, g.nodeIds, GraphEdge(id, source, target, edgeType, properties));
    }
  }

  lemma ExtendsTrans(a: Graph, b: Graph, c: Graph)
    requires Extends(a, b) && Extends(b, c)
    ensures Extends(a, c)
  {
  }

  lemma PharmacopoeiaConsistent(g: Graph, entity: Value, nodeType: Json, entityId: Value)
    requires Consistent(g)
    requires Truthy(entityId) ==> entityId.value in g.nodeIds
    ensures Consistent(PharmacopoeiaF(g, entity, nodeType, entityId))
    ensures Extends(g, PharmacopoeiaF(g, entity, nodeType, entityId))
  {
    var ph := Get(entity, "pharmacopoeia");
    if nodeType == Medicine && Truthy(ph) {
      var pharmId := Or(Get(ph, "id"), Some(JStr(DefaultPharmacopoeiaId))).value;
      var caption := Or(Get(ph, "name"), Some(JStr(DefaultPharmacopoeiaLabel))).value;
      var g1 := EmitNode(g, pharmId, caption, Pharmacopoeia, ph.value);
      assert NodeShaped(GraphNode(pharmId, caption, Pharmacopoeia, ph.value));
      EmitNodeConsistent(g, pharmId, caption, Pharmacopoeia, ph.value);
      if Truthy(entityId) {
        AddEdgeConsistent(g1, entityId.value, pharmId, "BELONGS_TO", JObj([]));
      }
    }
  }

  lemma {:induction false} LinkConsistent(g: Graph, entityId: Value, items: seq<Json>, edgeType: string, properties: Json)
    requires Consistent(g)
    requires Truthy(entityId) ==> entityId.value in g.nodeIds
    ensures Consistent(LinkF(g, entityId, items, edgeType, properties))
    ensures Extends(g, LinkF(g, entityId, items, edgeType, properties))
  {
    if items != [] {
      var init := items[..|items| - 1];
      var g1 := LinkF(g, entityId, init, edgeType, properties);
      LinkConsistent(g, entityId, init, edgeType, properties);
      LinkOneConsistent(g1, entityId, items[|items| - 1], edgeType, properties);
      ExtendsTrans(g, g1, LinkF(g, entityId, items, edgeType, properties));
    }
  }

  lemma ProcessEntityConsistent(g: Graph, entity: Value, nodeType: Json)
    requires Consistent(g)
    ensures Consistent(ProcessEntityF(g, entity, nodeType))
    ensures Extends(g, ProcessEntityF(g, entity, nodeType))
  {
    if Truthy(entity) {
      var entityId := NodeIdOf(entity);
      var g0 := AddNodeF(g, entity, nodeType);
      AddNodeConsistent(g, entity, nodeType);
      var g1 := PharmacopoeiaF(g0, entity, nodeType, entityId);
      PharmacopoeiaConsistent(g0, entity, nodeType, entityId);
      var g2 := LinkF(g1, entityId, LinkedItems(entity, nodeType, "refersTo"), "REFER_TO", ReferLabel);
      LinkConsistent(g1, entityId, LinkedItems(entity, nodeType, "refersTo"), "REFER_TO", ReferLabel);
      LinkConsistent(g2, entityId, LinkedItems(entity, nodeType, "relatedByCategory"), "RELATED", RelatedLabel);
      ExtendsTrans(g, g0, g1);
      ExtendsTrans(g, g1, g2);
      ExtendsTrans(g, g2, ProcessEntityF(g, entity, nodeType));
    }
  }

  lemma {:induction false} TraverseConsistent(g: Graph, obj: Json, parentType: Option<string>)
    requires Consistent(g)
    ensures Consistent(TraverseF(g, obj, parentType))
    ensures Extends(g, TraverseF(g, obj, parentType))
    decreases obj, 1
  {
    match obj
    case JArr(items) => TraverseItemsConsistent(g, obj, items, parentType);
    case JObj(fields) =>
      if Truthy(NodeIdOf(Some(obj))) {
        ProcessEntityConsistent(g, Some(obj), EntityType(obj, parentType));
      } else {
        TraverseFieldsConsistent(g, obj, fields, parentType);
      }
    case _ =>
  }

  lemma {:induction false} TraverseItemsConsistent(g: Graph, parent: Json, items: seq<Json>, parentType: Option<string>)
    requires forall i :: 0 <= i < |items| ==> items[i] < parent
    requires Consistent(g)
    ensures Consistent(TraverseItemsF(g, parent, items, parentType))
    ensures Extends(g, TraverseItemsF(g, parent, items, parentType))
    decreases parent, 0, |items|
  {
    if items != [] {
      var g1 := TraverseItemsF(g, parent, items[..|items| - 1], parentType);
      TraverseItemsConsistent(g, parent, items[..|items| - 1], parentType);
      TraverseConsistent(g1, items[|items| - 1], parentType);
      ExtendsTrans(g, g1, TraverseItemsF(g, parent, items, parentType));
    }
  }

  lemma {:induction false} TraverseFieldsConsistent(g: Graph, parent: Json, fields: seq<(string, Json)>, parentType: Option<string>)
    requires forall i :: 0 <= i < |fields| ==> fields[i].1 < parent
    requires Consistent(g)
    ensures Consistent(TraverseFieldsF(g, parent, fields, parentType))
    ensures Extends(g, TraverseFieldsF(g, parent, fields, parentType))
    decreases parent, 0, |fields|
  {
    if fields != [] {
      var last := fields[|fields| - 1];
      var g1 := TraverseFieldsF(g, parent, fields[..|fields| - 1], parentType);
      TraverseFieldsConsistent(g, parent, fields[..|fields| - 1], parentType);
      TraverseConsistent(g1, last.1, HintFor(last.0, parentType));
      ExtendsTrans(g, g1, TraverseFieldsF(g, parent, fields, parentType));
    }
  }

  lemma ConsistentWellFormed(g: Graph)
    requires Consistent(g)
    ensures WellFormed(GraphData(g.nodes, g.edges))
  {
  }

  /** Every extracted graph is well formed: no two nodes share an id, no two
      edges share an id, every edge id is `source-type-target`, and both ends
      of every edge are emitted nodes. */
  lemma ExtractWellFormed(result: Value)
    ensures WellFormed(ExtractF(result))
  {
    if result.Some? {
      TraverseConsistent(EmptyGraph, result.value, None);
      ConsistentWellFormed(TraverseF(EmptyGraph, result.value, None));
    }
  }

  // ---------------------------------------------------------------------
  // extractGraphFromResult, step by step

  /** The closure state of `extractGraphFromResult`: the `nodes`/`edges`
      arrays and the `nodeIds`/`edgeIds` sets its helpers push to. */
  class GraphBuilder {
    var nodes: seq<GraphNode>
    var edges: seq<GraphEdge>
    var nodeIds: set<Json>
    var edgeIds: set<string>

    function State(): Graph
      reads this
    {
      Graph(nodes, edges, nodeIds, edgeIds)
    }

    constructor()
      ensures State() == EmptyGraph
    {
      nodes := [];
      edges := [];
      nodeIds := {};
      edgeIds := {};
    }

    method AddNode(item: Value, nodeType: Json)
      modifies this
      ensures State() == AddNodeF(old(State()), item, nodeType)
    {
      if !Truthy(item) {
        return;
      }
      var nodeId := NodeIdOf(item);
      if !Truthy(nodeId) {
        return;
      }
      if nodeId.value !in nodeIds {
        nodeIds := nodeIds + {nodeId.value};
        nodes := nodes + [GraphNode(nodeId.value, Or(Get(item, "name"), nodeId).value, nodeType, item.value)];
      }
    }

    method AddEdge(source: Json, target: Json, edgeType: string, properties: Json)
      modifies this
      ensures State() == AddEdgeF(old(State()), source, target, edgeType, properties)
    {
      var edgeId := EdgeId(Some(source), edgeType, Some(target));
      if edgeId !in edgeIds {
        edgeIds := edgeIds + {edgeId};
        edges := edges + [GraphEdge(edgeId, source, target, edgeType, properties)];
      }
    }

    /** The `forEach` over a `refersTo` or `relatedByCategory` array. */
    method Link(entityId: Value, items: seq<Json>, edgeType: string, properties: Json)
      modifies this
      ensures State() == LinkF(old(State()), entityId, items, edgeType, properties)
    {
      ghost var start := State();
      for i := 0 to |items|
        invariant State() == LinkF(start, entityId, items[..i], edgeType, properties)
      {
        assert items[..i + 1][..i] == items[..i];
        var item := items[i];
        if Truthy(Some(item)) && Truthy(NodeIdOf(Some(item))) {
          AddNode(Some(item), Medicine);
          var itemId := NodeIdOf(Some(item));
          if Truthy(entityId) && Truthy(itemId) {
            AddEdge(entityId.value, itemId.value, edgeType, properties);
          }
        }
      }
      assert items[..|items|] == items;
    }

    method ProcessEntity(entity: Value, nodeType: Json)
      modifies this
      ensures State() == ProcessEntityF(old(State()), entity, nodeType)
    {
      if !Truthy(entity) {
        return;
      }
      AddNode(entity, nodeType);
      var entityId := NodeIdOf(entity);
      var ph := Get(entity, "pharmacopoeia");
      if nodeType == Medicine && Truthy(ph) {
        var pharmId := Or(Get(ph, "id"), Some(JStr(DefaultPharmacopoeiaId))).value;
        if pharmId !in nodeIds {
          nodeIds := nodeIds + {pharmId};
          nodes := nodes + [GraphNode(pharmId, Or(Get(ph, "name"), Some(JStr(DefaultPharmacopoeiaLabel))).value,
                                      Pharmacopoeia, ph.value)];
        }
        if Truthy(entityId) {
          AddEdge(entityId.value, pharmId, "BELONGS_TO", JObj([]));
        }
      }
      var refersTo := Get(entity, "refersTo");
      if nodeType == Medicine && Truthy(refersTo) && IsArray(refersTo) {
        Link(entityId, refersTo.value.items, "REFER_TO", ReferLabel);
      }
      var related := Get(entity, "relatedByCategory");
      if nodeType == Medicine && Truthy(related) && IsArray(related) {
        Link(entityId, related.value.items, "RELATED", RelatedLabel);
      }
    }

    method Traverse(obj: Json, parentType: Option<string>)
      modifies this
      decreases obj
      ensures State() == TraverseF(old(State()), obj, parentType)
    {
      match obj
      case JArr(items) =>
        ghost var start := State();
        for i := 0 to |items|
          invariant State() == TraverseItemsF(start, obj, items[..i], parentType)
        {
          assert items[..i + 1][..i] == items[..i];
          Traverse(items[i], parentType);
        }
        assert items[..|items|] == items;
      case JObj(fields) =>
        if Truthy(NodeIdOf(Some(obj))) {
          ProcessEntity(Some(obj), EntityType(obj, parentType));
        } else {
          ghost var start := State();
          for i := 0 to |fields|
            invariant State() == TraverseFieldsF(start, obj, fields[..i], parentType)
          {
            assert fields[..i + 1][..i] == fields[..i];
            var (key, value) := fields[i];
            Traverse(value, HintFor(key, parentType));
          }
          assert fields[..|fields|] == fields;
        }
      case _ =>
    }
  }

  /** `extractGraphFromResult`. */
  method ExtractGraphFromResult(result: Value) returns (graph: GraphData)
    ensures graph == ExtractF(result)
    ensures WellFormed(graph)
  {
    var builder := new GraphBuilder();
    if result.Some? {
      builder.Traverse(result.value, None);
    }
    graph := GraphData(builder.nodes, builder.edges);
    ExtractWellFormed(result);
  }

  // ---------------------------------------------------------------------
  // Later input never changes what was emitted for earlier input

  lemma {:induction false} ItemsParentIrrelevant(g: Graph, p1: Json, p2: Json, items: seq<Json>, parentType: Option<string>)
    requires forall i :: 0 <= i < |items| ==> items[i] < p1 && items[i] < p2
    ensures TraverseItemsF(g, p1, items, parentType) == TraverseItemsF(g, p2, items, parentType)
  {
    if items != [] {
      ItemsParentIrrelevant(g, p1, p2, items[..|items| - 1], parentType);
    }
  }

  lemma {:induction false} ItemsAppendExtends(g: Graph, parent: Json, xs: seq<Json>, ys: seq<Json>, parentType: Option<string>)
    requires forall i :: 0 <= i < |xs + ys| ==> (xs + ys)[i] < parent
    requires forall i :: 0 <= i < |xs| ==> xs[i] < parent
    requires Consistent(g)
    ensures Extends(TraverseItemsF(g, parent, xs, parentType), TraverseItemsF(g, parent, xs + ys, parentType))
  {
    if ys == [] {
      assert xs + ys == xs;
    } else {
      var init := xs + ys[..|ys| - 1];
      assert (xs + ys)[..|xs + ys| - 1] == init;
      assert forall i :: 0 <= i < |init| ==> init[i] == (xs + ys)[i];
      ItemsAppendExtends(g, parent, xs, ys[..|ys| - 1], parentType);
      TraverseItemsConsistent(g, parent, init, parentType);
      TraverseConsistent(TraverseItemsF(g, parent, init, parentType), (xs + ys)[|xs + ys| - 1], parentType);
      ExtendsTrans(TraverseItemsF(g, parent, xs, parentType), TraverseItemsF(g, parent, init, parentType),
                   TraverseItemsF(g, parent, xs + ys, parentType));
    }
  }

  /** Extracting from a longer array keeps, unchanged and in place, every node
      and edge emitted for its prefix: the first occurrence of an id wins and a
      later one is ignored, not merged. */
  lemma ExtractArrayPrefix(xs: seq<Json>, ys: seq<Json>)
    ensures ExtractF(Some(JArr(xs))).nodes <= ExtractF(Some(JArr(xs + ys))).nodes
    ensures ExtractF(Some(JArr(xs))).edges <= ExtractF(Some(JArr(xs + ys))).edges
  {
    var whole := JArr(xs + ys);
    assert forall i :: 0 <= i < |xs| ==> xs[i] == (xs + ys)[i];
    ItemsParentIrrelevant(EmptyGraph, JArr(xs), whole, xs, None);
    ItemsAppendExtends(EmptyGraph, whole, xs, ys, None);
  }

  // ---------------------------------------------------------------------
  // trimGraph

  function NodeIdSet(nodes: seq<GraphNode>): set<Json> {
    set n | n in nodes :: n.id
  }

  /** The edges with both ends in `ids`, in order. */
  function FilterEdges(edges: seq<GraphEdge>, ids: set<Json>): seq<GraphEdge> {
    if edges == [] then []
    else
      (if edges[0].source in ids && edges[0].target in ids then [edges[0]] else [])
      + FilterEdges(edges[1..], ids)
  }

  /** `trimGraph`: the first `maxNodes` nodes, then the first `maxEdges` of the
      edges with both ends among them. Counts are JavaScript `slice` bounds. */
  function TrimGraph(graph: GraphData, maxNodes: int, maxEdges: int): GraphData {
    var nodes := SliceTo(graph.nodes, maxNodes);
    GraphData(nodes, SliceTo(FilterEdges(graph.edges, NodeIdSet(nodes)), maxEdges))
  }

  /** `a` is an order-preserving subsequence of `b`. */
  predicate IsSubsequence<T(==)>(a: seq<T>, b: seq<T>)
    decreases |b|
  {
    if a == [] then true
    else if b == [] then false
    else if a[0] == b[0] then IsSubsequence(a[1..], b[1..])
    else IsSubsequence(a, b[1..])
  }

  lemma {:induction false} FilterEdgesIff(edges: seq<GraphEdge>, ids: set<Json>)
    ensures forall e :: e in FilterEdges(edges, ids) <==> (e in edges && e.source in ids && e.target in ids)
  {
    if edges != [] {
      FilterEdgesIff(edges[1..], ids);
      assert edges == [edges[0]] + edges[1..];
    }
  }

  lemma {:induction false} FilterEdgesSubsequence(edges: seq<GraphEdge>, ids: set<Json>)
    ensures IsSubsequence(FilterEdges(edges, ids), edges)
  {
    if edges != [] {
      FilterEdgesSubsequence(edges[1..], ids);
      var rest := FilterEdges(edges[1..], ids);
      if edges[0].source in ids && edges[0].target in ids {
        assert ([edges[0]] + rest)[1..] == rest;
      } else {
        assert FilterEdges(edges, ids) == rest;
        SubsequenceSkip(rest, edges);
      }
    }
  }

  /** Dropping the first element of `b` keeps a subsequence of the rest a subsequence of `b`. */
  lemma {:induction false} SubsequenceSkip<T>(a: seq<T>, b: seq<T>)
    requires b != [] && IsSubsequence(a, b[1..])
    ensures IsSubsequence(a, b)
    decreases |b|, 0
  {
    if a != [] && a[0] == b[0] {
      SubsequenceTail(a, b[1..]);
    }
  }

  lemma {:induction false} SubsequenceTail<T>(a: seq<T>, b: seq<T>)
    requires a != [] && IsSubsequence(a, b)
    ensures IsSubsequence(a[1..], b)
    decreases |b|, 1
  {
    if a[0] != b[0] {
      SubsequenceTail(a, b[1..]);
    }
    SubsequenceSkip(a[1..], b);
  }

  lemma {:induction false} PrefixSubsequence<T>(a: seq<T>, b: seq<T>, n: nat)
    requires n <= |a| && IsSubsequence(a, b)
    ensures IsSubsequence(a[..n], b)
    decreases |b|
  {
    if n > 0 && b != [] {
      if a[0] == b[0] {
        PrefixSubsequence(a[1..], b[1..], n - 1);
        assert a[..n][1..] == a[1..][..n - 1];
      } else {
        PrefixSubsequence(a, b[1..], n);
      }
    }
  }

  lemma {:induction false} FilterEdgesDistinct(edges: seq<GraphEdge>, ids: set<Json>)
    requires EdgeIdsDistinct(edges)
    ensures EdgeIdsDistinct(FilterEdges(edges, ids))
  {
    if edges != [] {
      var rest := FilterEdges(edges[1..], ids);
      FilterEdgesDistinct(edges[1..], ids);
      FilterEdgesIff(edges[1..], ids);
      if edges[0].source in ids && edges[0].target in ids {
        var r := [edges[0]] + rest;
        forall i, j | 0 <= i < j < |r| ensures r[i].id != r[j].id {
          if i == 0 {
            assert r[j] in edges[1..];
            var k :| 0 <= k < |edges[1..]| && edges[1..][k] == r[j];
            assert edges[k + 1] == r[j];
          } else {
            assert r[i] == rest[i - 1] && r[j] == rest[j - 1];
          }
        }
      }
    }
  }

  /** `trimGraph` keeps a prefix of at most `maxNodes` nodes and an
      order-preserving subsequence of at most `maxEdges` edges, each with both
      ends among the kept nodes; with the ceiling not reached, every edge
      between kept nodes survives. */
  lemma TrimGraphFacts(graph: GraphData, maxNodes: int, maxEdges: int)
    ensures var r := TrimGraph(graph, maxNodes, maxEdges);
      && r.nodes <= graph.nodes
      && (0 <= maxNodes ==> |r.nodes| == Min(maxNodes, |graph.nodes|))
      && (0 <= maxEdges ==> |r.edges| <= maxEdges)
      && IsSubsequence(r.edges, graph.edges)
      && (forall i :: 0 <= i < |r.edges| ==> HasNode(r.nodes, r.edges[i].source) && HasNode(r.nodes, r.edges[i].target))
      && (|FilterEdges(graph.edges, NodeIdSet(r.nodes))| <= maxEdges ==>
            forall e :: e in graph.edges && HasNode(r.nodes, e.source) && HasNode(r.nodes, e.target) ==> e in r.edges)
  {
    var r := TrimGraph(graph, maxNodes, maxEdges);
    var ids := NodeIdSet(r.nodes);
    var kept := FilterEdges(graph.edges, ids);
    FilterEdgesIff(graph.edges, ids);
    FilterEdgesSubsequence(graph.edges, ids);
    PrefixSubsequence(kept, graph.edges, |r.edges|);
    forall i | 0 <= i < |r.edges| ensures HasNode(r.nodes, r.edges[i].source) && HasNode(r.nodes, r.edges[i].target) {
      assert r.edges[i] == kept[i];
      assert r.edges[i] in kept;
      HasNodeFromSet(r.nodes, r.edges[i].source);
      HasNodeFromSet(r.nodes, r.edges[i].target);
    }
    if |kept| <= maxEdges {
      assert r.edges == kept;
      forall e | e in graph.edges && HasNode(r.nodes, e.source) && HasNode(r.nodes, e.target) ensures e in r.edges {
        HasNodeFromSet(r.nodes, e.source);
        HasNodeFromSet(r.nodes, e.target);
      }
    }
  }

  lemma HasNodeFromSet(nodes: seq<GraphNode>, x: Json)
    ensures x in NodeIdSet(nodes) <==> HasNode(nodes, x)
  {
    if x in NodeIdSet(nodes) {
      var n :| n in nodes && n.id == x;
      var i :| 0 <= i < |nodes| && nodes[i] == n;
    }
  }

  /** Trimming a well-formed graph leaves it well formed. */
  lemma TrimGraphWellFormed(graph: GraphData, maxNodes: int, maxEdges: int)
    requires WellFormed(graph)
    ensures WellFormed(TrimGraph(graph, maxNodes, maxEdges))
  {
    TrimGraphNodesWellFormed(graph, maxNodes, maxEdges);
    TrimGraphEdgesWellFormed(graph, maxNodes, maxEdges);
    TrimGraphFacts(graph, maxNodes, maxEdges);
  }

  lemma TrimGraphNodesWellFormed(graph: GraphData, maxNodes: int, maxEdges: int)
    requires WellFormed(graph)
    ensures var r := TrimGraph(graph, maxNodes, maxEdges);
      (forall i :: 0 <= i < |r.nodes| ==> NodeShaped(r.nodes[i])) && NodeIdsDistinct(r.nodes)
  {
    var r := TrimGraph(graph, maxNodes, maxEdges);
    TrimGraphFacts(graph, maxNodes, maxEdges);
    assert r.nodes == graph.nodes[..|r.nodes|];
  }

  lemma TrimGraphEdgesWellFormed(graph: GraphData, maxNodes: int, maxEdges: int)
    requires WellFormed(graph)
    ensures var r := TrimGraph(graph, maxNodes, maxEdges);
      EdgeIdsDistinct(r.edges) && forall i :: 0 <= i < |r.edges| ==> EdgeFormat(r.edges[i])
  {
    var r := TrimGraph(graph, maxNodes, maxEdges);
    var ids := NodeIdSet(r.nodes);
    var kept := FilterEdges(graph.edges, ids);
    TrimGraphFacts(graph, maxNodes, maxEdges);
    FilterEdgesIff(graph.edges, ids);
    FilterEdgesDistinct(graph.edges, ids);
    assert r.edges == kept[..|r.edges|];
    forall i | 0 <= i < |r.edges| ensures EdgeFormat(r.edges[i]) {
      assert r.edges[i] == kept[i];
      assert kept[i] in graph.edges;
    }
  }

  // ---------------------------------------------------------------------
  // generateEvidence

  /** An evidence row: its text and the graph elements it highlights.
      A node id is whatever `doc_id || id` gave, `undefined` included. */
  datatype EvidenceItem = EvidenceItem(text: string, nodeIds: seq<Value>, edgeIds: seq<string>)

  const MaxEvidence: nat := 6
  const MaxReferRows: nat := 3
  const MaxRelatedRows: nat := 2
  const ContentPreviewLength: nat := 50
  const ReferLead: string := "  ↳ 引用：【"
  const RelatedLead: string := "  ↳ 同类：【"

  /** `v.length`: strings and arrays have one; an object only as a property. */
  function LengthOf(v: Value): Value {
    match v
    case Some(JStr(s)) => Some(JNum(|s|))
    case Some(JArr(items)) => Some(JNum(|items|))
    case Some(JObj(_)) => Get(v, "length")
    case _ => None
  }

  /** Appends the content preview to `text`: `substring` exists only on
      strings, so a non-string `content` with a positive `length` throws. */
  function WithContent(medicine: Value, text: string): Result<string> {
    var content := Get(medicine, "content");
    if Truthy(content) && GreaterThan(LengthOf(content), 0) then
      if content.value.JStr? then
        var s := content.value.s;
        Success(text + ("。" + Prefix(s, ContentPreviewLength) + (if |s| > ContentPreviewLength then "..." else "")))
      else Failure(TypeError)
    else Success(text)
  }

  /** The headline of a medicine's row: name, then category and edition when truthy. */
  function MedicineText(medicine: Value): string {
    var category := Get(medicine, "category");
    var edition := Get(medicine, "edition");
    var named := "【" + ToJsString(Get(medicine, "name")) + "】";
    var categorised := if Truthy(category) then named + (" - 分类：" + ToJsString(category)) else named;
    if Truthy(edition) then categorised + (" (" + ToJsString(edition) + ")") else categorised
  }

  /** The row for one referred or related medicine; `null` throws. */
  function RowEvidence(medicineId: Value, row: Json, edgeType: string, lead: string): Result<EvidenceItem> {
    if row.JNull? then Failure(TypeError)
    else
      var rowId := NodeIdOf(Some(row));
      var category := Get(Some(row), "category");
      var named := lead + ToJsString(Get(Some(row), "name")) + "】";
      Success(EvidenceItem(
        if Truthy(category) then named + (" - " + ToJsString(category)) else named,
        [rowId],
        [EdgeId(medicineId, edgeType, rowId)]))
  }

  function RowsEvidence(medicineId: Value, rows: seq<Json>, edgeType: string, lead: string): Result<seq<EvidenceItem>> {
    if rows == [] then Success([])
    else
      var init :- RowsEvidence(medicineId, rows[..|rows| - 1], edgeType, lead);
      var last :- RowEvidence(medicineId, rows[|rows| - 1], edgeType, lead);
      Success(init + [last])
  }

  /** The rows of one medicine: its own, up to 3 references, up to 2 related. */
  function MedicineEvidence(medicine: Json): Result<seq<EvidenceItem>> {
    if medicine.JNull? then Failure(TypeError)
    else
      var m := Some(medicine);
      var medicineId := NodeIdOf(m);
      var text :- WithContent(m, MedicineText(m));
      var refers :- RowsEvidence(medicineId, SliceTo(ArrayUnder(m, "refersTo"), MaxReferRows), "REFER_TO", ReferLead);
      var related :- RowsEvidence(medicineId, SliceTo(ArrayUnder(m, "relatedByCategory"), MaxRelatedRows), "RELATED", RelatedLead);
      Success([EvidenceItem(text, [medicineId], [])] + refers + related)
  }

  function MedicinesEvidence(medicines: seq<Json>): Result<seq<EvidenceItem>> {
    if medicines == [] then Success([])
    else
      var init :- MedicinesEvidence(medicines[..|medicines| - 1]);
      var last :- MedicineEvidence(medicines[|medicines| - 1]);
      Success(init + last)
  }

  lemma {:induction false} RowsEvidenceLength(medicineId: Value, rows: seq<Json>, edgeType: string, lead: string)
    requires RowsEvidence(medicineId, rows, edgeType, lead).Success?
    ensures |RowsEvidence(medicineId, rows, edgeType, lead).value| == |rows|
  {
    if rows != [] {
      RowsEvidenceLength(medicineId, rows[..|rows| - 1], edgeType, lead);
    }
  }

  /** A medicine contributes its own row first, citing only its id, then one
      row per reference up to 3 and one per related medicine up to 2. */
  lemma MedicineEvidenceCount(medicine: Json)
    requires MedicineEvidence(medicine).Success?
    ensures var r := MedicineEvidence(medicine).value;
      var m := Some(medicine);
      && |r| == 1 + Min(MaxReferRows, |ArrayUnder(m, "refersTo")|) + Min(MaxRelatedRows, |ArrayUnder(m, "relatedByCategory")|)
      && r[0].nodeIds == [NodeIdOf(m)] && r[0].edgeIds == []
  {
    var m := Some(medicine);
    var medicineId := NodeIdOf(m);
    RowsEvidenceLength(medicineId, SliceTo(ArrayUnder(m, "refersTo"), MaxReferRows), "REFER_TO", ReferLead);
    RowsEvidenceLength(medicineId, SliceTo(ArrayUnder(m, "relatedByCategory"), MaxRelatedRows), "RELATED", RelatedLead);
  }

  /** The row of a single entry fails exactly when it is `null`, with a TypeError. */
  lemma RowEvidenceFails(medicineId: Value, row: Json, edgeType: string, lead: string)
    ensures RowEvidence(medicineId, row, edgeType, lead).Failure? <==> row.JNull?
    ensures RowEvidence(medicineId, row, edgeType, lead).Failure? ==>
      RowEvidence(medicineId, row, edgeType, lead) == Failure(TypeError)
  {
  }

  /** The rows of a list fail exactly when one of them is `null`, and then with a TypeError. */
  lemma {:induction false} RowsEvidenceFails(medicineId: Value, rows: seq<Json>, edgeType: string, lead: string)
    ensures RowsEvidence(medicineId, rows, edgeType, lead).Failure? <==> JNull in rows
    ensures RowsEvidence(medicineId, rows, edgeType, lead).Failure? ==>
      RowsEvidence(medicineId, rows, edgeType, lead) == Failure(TypeError)
  {
    if rows != [] {
      var init := rows[..|rows| - 1];
      assert rows == init + [rows[|rows| - 1]];
      RowsEvidenceFails(medicineId, init, edgeType, lead);
      RowEvidenceFails(medicineId, rows[|rows| - 1], edgeType, lead);
    }
  }

  lemma MedicineEvidenceFails(medicine: Json)
    ensures MedicineEvidence(medicine).Failure? ==> MedicineEvidence(medicine) == Failure(TypeError)
  {
    var m := Some(medicine);
    RowsEvidenceFails(NodeIdOf(m), SliceTo(ArrayUnder(m, "refersTo"), MaxReferRows), "REFER_TO", ReferLead);
    RowsEvidenceFails(NodeIdOf(m), SliceTo(ArrayUnder(m, "relatedByCategory"), MaxRelatedRows), "RELATED", RelatedLead);
  }

  /** A list of medicines fails exactly when one of them does, and then with a TypeError. */
  lemma {:induction false} MedicinesEvidenceFails(medicines: seq<Json>)
    ensures MedicinesEvidence(medicines).Failure? <==>
      exists m :: m in medicines && MedicineEvidence(m).Failure?
    ensures MedicinesEvidence(medicines).Failure? ==> MedicinesEvidence(medicines) == Failure(TypeError)
  {
    if medicines != [] {
      var init := medicines[..|medicines| - 1];
      var last := medicines[|medicines| - 1];
      assert medicines == init + [last];
      MedicinesEvidenceFails(init);
      MedicineEvidenceFails(last);
    }
  }

  /** What `generateEvidence` returns (or throws): only `result.medicines` is read. */
  function EvidenceF(result: Value): (r: Result<seq<EvidenceItem>>)
    ensures IsNullish(result) ==> r == Failure(TypeError)
    ensures r.Success? ==> |r.value| <= MaxEvidence
  {
    if IsNullish(result) then Failure(TypeError)
    else
      var all :- MedicinesEvidence(SliceTo(ArrayUnder(result, "medicines"), MaxEvidence));
      Success(SliceTo(all, MaxEvidence))
  }

  /** `generateEvidence`; the graph argument is not used by the source. */
  method GenerateEvidence(result: Value, graph: GraphData) returns (r: Result<seq<EvidenceItem>>)
    ensures r == EvidenceF(result)
  {
    if IsNullish(result) {
      return Failure(TypeError);
    }
    var evidence: seq<EvidenceItem> := [];
    var medicines := SliceTo(ArrayUnder(result, "medicines"), MaxEvidence);
    for i := 0 to |medicines|
      invariant MedicinesEvidence(medicines[..i]) == Success(evidence)
    {
      assert medicines[..i + 1][..i] == medicines[..i];
      var rows := PushMedicine(medicines[i]);
      if rows.Failure? {
        MedicinesEvidenceFails(medicines);
        return Failure(TypeError);
      }
      evidence := evidence + rows.value;
    }
    assert medicines[..|medicines|] == medicines;
    return Success(SliceTo(evidence, MaxEvidence));
  }

  /** The body of the `forEach` over the medicines: the rows one medicine pushes. */
  method PushMedicine(medicine: Json) returns (r: Result<seq<EvidenceItem>>)
    ensures r == MedicineEvidence(medicine)
  {
    if medicine.JNull? {
      return Failure(TypeError);
    }
    var m := Some(medicine);
    var medicineId := NodeIdOf(m);
    var text := "【" + ToJsString(Get(m, "name")) + "】";
    var category := Get(m, "category");
    if Truthy(category) {
      text := text + (" - 分类：" + ToJsString(category));
    }
    var edition := Get(m, "edition");
    if Truthy(edition) {
      text := text + (" (" + ToJsString(edition) + ")");
    }
    var content := Get(m, "content");
    if Truthy(content) && GreaterThan(LengthOf(content), 0) {
      if !content.value.JStr? {
        return Failure(TypeError);
      }
      var s := content.value.s;
      text := text + ("。" + Prefix(s, ContentPreviewLength) + (if |s| > ContentPreviewLength then "..." else ""));
    }
    var evidence := [EvidenceItem(text, [medicineId], [])];
    var refers := PushRows(medicineId, SliceTo(ArrayUnder(m, "refersTo"), MaxReferRows), "REFER_TO", ReferLead);
    if refers.Failure? {
      RowsEvidenceFails(medicineId, SliceTo(ArrayUnder(m, "refersTo"), MaxReferRows), "REFER_TO", ReferLead);
      return Failure(TypeError);
    }
    evidence := evidence + refers.value;
    var related := PushRows(medicineId, SliceTo(ArrayUnder(m, "relatedByCategory"), MaxRelatedRows), "RELATED", RelatedLead);
    if related.Failure? {
      RowsEvidenceFails(medicineId, SliceTo(ArrayUnder(m, "relatedByCategory"), MaxRelatedRows), "RELATED", RelatedLead);
      return Failure(TypeError);
    }
    evidence := evidence + related.value;
    return Success(evidence);
  }

  /** The `forEach` over the first rows of a `refersTo`/`relatedByCategory` list. */
  method PushRows(medicineId: Value, rows: seq<Json>, edgeType: string, lead: string) returns (r: Result<seq<EvidenceItem>>)
    ensures r == RowsEvidence(medicineId, rows, edgeType, lead)
  {
    var out: seq<EvidenceItem> := [];
    for i := 0 to |rows|
      invariant RowsEvidence(medicineId, rows[..i], edgeType, lead) == Success(out)
    {
      assert rows[..i + 1][..i] == rows[..i];
      var row := rows[i];
      if row.JNull? {
        RowsEvidenceFails(medicineId, rows, edgeType, lead);
        return Failure(TypeError);
      }
      var rowId := NodeIdOf(Some(row));
      var text := lead + ToJsString(Get(Some(row), "name")) + "】";
      var category := Get(Some(row), "category");
      if Truthy(category) {
        text := text + (" - " + ToJsString(category));
      }
      out := out + [EvidenceItem(text, [rowId], [EdgeId(medicineId, edgeType, rowId)])];
    }
    assert rows[..|rows|] == rows;
    return Success(out);
  }

  // ---------------------------------------------------------------------
  // The evidence rows cite edges the extractor emits

  /** The edge ids `entityId-edgeType-itemId` of the linked items that have an id. */
  function LinkEdgeIds(entityId: Value, items: seq<Json>, edgeType: string): set<string> {
    set r | r in items && Truthy(NodeIdOf(Some(r))) :: EdgeId(entityId, edgeType, NodeIdOf(Some(r)))
  }

  /** The REFER_TO and RELATED edge ids a medicine's lists call for. */
  function CitedEdgeIds(medicine: Json): set<string> {
    var m := Some(medicine);
    LinkEdgeIds(NodeIdOf(m), ArrayUnder(m, "refersTo"), "REFER_TO")
    + LinkEdgeIds(NodeIdOf(m), ArrayUnder(m, "relatedByCategory"), "RELATED")
  }

  function CitedUnion(medicines: seq<Json>): set<string> {
    if medicines == [] then {}
    else CitedUnion(medicines[..|medicines| - 1]) + CitedEdgeIds(medicines[|medicines| - 1])
  }

  /** A medicine the extractor treats as a Medicine entity under a `medicines` key. */
  predicate MedicineEntity(medicine: Json) {
    Truthy(NodeIdOf(Some(medicine))) && EntityType(medicine, Some("Medicine")) == Medicine
  }

  lemma LinkOneConsistent(g: Graph, entityId: Value, item: Json, edgeType: string, properties: Json)
    requires Consistent(g)
    requires Truthy(entityId) ==> entityId.value in g.nodeIds
    ensures Consistent(LinkOneF(g, entityId, item, edgeType, properties))
    ensures Extends(g, LinkOneF(g, entityId, item, edgeType, properties))
    ensures Truthy(entityId) && Truthy(NodeIdOf(Some(item))) ==>
      EdgeId(entityId, edgeType, NodeIdOf(Some(item))) in LinkOneF(g, entityId, item, edgeType, properties).edgeIds
  {
    var itemId := NodeIdOf(Some(item));
    if Truthy(Some(item)) && Truthy(itemId) {
      var g1 := AddNodeF(g, Some(item), Medicine);
      AddNodeConsistent(g, Some(item), Medicine);
      if Truthy(entityId) {
        AddEdgeConsistent(g1, entityId.value, itemId.value, edgeType, properties);
      }
    }
  }

  lemma LinkEdgeIdsSplit(entityId: Value, items: seq<Json>, edgeType: string)
    requires items != []
    ensures LinkEdgeIds(entityId, items, edgeType) ==
      LinkEdgeIds(entityId, items[..|items| - 1], edgeType) + LinkEdgeIds(entityId, [items[|items| - 1]], edgeType)
  {
    assert items == items[..|items| - 1] + [items[|items| - 1]];
  }

  lemma {:induction false} LinkCoversEdges(g: Graph, entityId: Value, items: seq<Json>, edgeType: string, properties: Json)
    requires Consistent(g) && Truthy(entityId) && entityId.value in g.nodeIds
    ensures LinkEdgeIds(entityId, items, edgeType) <= LinkF(g, entityId, items, edgeType, properties).edgeIds
  {
    if items != [] {
      var init := items[..|items| - 1];
      var last := items[|items| - 1];
      var g1 := LinkF(g, entityId, init, edgeType, properties);
      LinkCoversEdges(g, entityId, init, edgeType, properties);
      LinkConsistent(g, entityId, init, edgeType, properties);
      LinkOneConsistent(g1, entityId, last, edgeType, properties);
      LinkEdgeIdsSplit(entityId, items, edgeType);
    }
  }

  /** Processing a Medicine entity emits every edge its lists call for. */
  lemma ProcessEntityCoversEdges(g: Graph, medicine: Json)
    requires Consistent(g) && Truthy(NodeIdOf(Some(medicine)))
    ensures CitedEdgeIds(medicine) <= ProcessEntityF(g, Some(medicine), Medicine).edgeIds
  {
    var m := Some(medicine);
    var entityId := NodeIdOf(m);
    var g0 := AddNodeF(g, m, Medicine);
    AddNodeConsistent(g, m, Medicine);
    var g1 := PharmacopoeiaF(g0, m, Medicine, entityId);
    PharmacopoeiaConsistent(g0, m, Medicine, entityId);
    var refers := ArrayUnder(m, "refersTo");
    var related := ArrayUnder(m, "relatedByCategory");
    var g2 := LinkF(g1, entityId, refers, "REFER_TO", ReferLabel);
    LinkCoversEdges(g1, entityId, refers, "REFER_TO", ReferLabel);
    LinkConsistent(g1, entityId, refers, "REFER_TO", ReferLabel);
    LinkCoversEdges(g2, entityId, related, "RELATED", RelatedLabel);
    LinkConsistent(g2, entityId, related, "RELATED", RelatedLabel);
    assert ProcessEntityF(g, m, Medicine) == LinkF(g2, entityId, related, "RELATED", RelatedLabel);
  }

  lemma {:induction false} ItemsCoverEdges(g: Graph, parent: Json, medicines: seq<Json>)
    requires forall i :: 0 <= i < |medicines| ==> medicines[i] < parent
    requires Consistent(g)
    requires forall m :: m in medicines ==> MedicineEntity(m)
    ensures CitedUnion(medicines) <= TraverseItemsF(g, parent, medicines, Some("Medicine")).edgeIds
  {
    if medicines != [] {
      var init := medicines[..|medicines| - 1];
      var last := medicines[|medicines| - 1];
      var g1 := TraverseItemsF(g, parent, init, Some("Medicine"));
      ItemsCoverEdges(g, parent, init);
      TraverseItemsConsistent(g, parent, init, Some("Medicine"));
      assert last in medicines;
      assert TraverseF(g1, last, Some("Medicine")) == ProcessEntityF(g1, Some(last), Medicine);
      ProcessEntityCoversEdges(g1, last);
      ProcessEntityConsistent(g1, Some(last), Medicine);
    }
  }

  lemma {:induction false} FieldsCoverEdges(g: Graph, parent: Json, fields: seq<(string, Json)>, parentType: Option<string>, k: nat)
    requires forall i :: 0 <= i < |fields| ==> fields[i].1 < parent
    requires Consistent(g)
    requires k < |fields| && fields[k].0 == "medicines" && fields[k].1.JArr?
    requires forall m :: m in fields[k].1.items ==> MedicineEntity(m)
    ensures CitedUnion(fields[k].1.items) <= TraverseFieldsF(g, parent, fields, parentType).edgeIds
  {
    var init := fields[..|fields| - 1];
    var last := fields[|fields| - 1];
    var g1 := TraverseFieldsF(g, parent, init, parentType);
    TraverseFieldsConsistent(g, parent, init, parentType);
    if k == |fields| - 1 {
      var v := last.1;
      assert TraverseF(g1, v, HintFor(last.0, parentType)) == TraverseItemsF(g1, v, v.items, Some("Medicine"));
      ItemsCoverEdges(g1, v, v.items);
    } else {
      assert init[k] == fields[k];
      FieldsCoverEdges(g, parent, init, parentType, k);
      TraverseConsistent(g1, last.1, HintFor(last.0, parentType));
    }
  }

  /** Every edge id the union of cited ids holds is cited by a medicine in the list. */
  lemma {:induction false} CitedUnionOf(medicines: seq<Json>, m: Json)
    requires m in medicines
    ensures CitedEdgeIds(m) <= CitedUnion(medicines)
  {
    var init := medicines[..|medicines| - 1];
    if m != medicines[|medicines| - 1] {
      assert medicines == init + [medicines[|medicines| - 1]];
      CitedUnionOf(init, m);
    }
  }

  /** An evidence row cites an edge only when `medicines` calls for it: a row
      without edges, or one edge `mid-TYPE-rid` from the medicine's lists. */
  predicate CitesFrom(cited: set<string>, item: EvidenceItem) {
    item.edgeIds == []
    || (|item.edgeIds| == 1 && |item.nodeIds| == 1 && (Truthy(item.nodeIds[0]) ==> item.edgeIds[0] in cited))
  }

  lemma {:induction false} RowsCite(medicineId: Value, rows: seq<Json>, items: seq<Json>, edgeType: string, lead: string)
    requires RowsEvidence(medicineId, rows, edgeType, lead).Success?
    requires forall r :: r in rows ==> r in items
    ensures forall item :: item in RowsEvidence(medicineId, rows, edgeType, lead).value ==>
      CitesFrom(LinkEdgeIds(medicineId, items, edgeType), item)
  {
    if rows != [] {
      var init := rows[..|rows| - 1];
      var last := rows[|rows| - 1];
      assert forall r :: r in init ==> r in rows;
      RowsCite(medicineId, init, items, edgeType, lead);
      assert last in rows;
      var rowId := NodeIdOf(Some(last));
      if Truthy(rowId) {
        assert EdgeId(medicineId, edgeType, rowId) in LinkEdgeIds(medicineId, items, edgeType);
      }
    }
  }

  lemma MedicineCites(medicine: Json)
    requires MedicineEvidence(medicine).Success?
    ensures forall item :: item in MedicineEvidence(medicine).value ==> CitesFrom(CitedEdgeIds(medicine), item)
  {
    var m := Some(medicine);
    var medicineId := NodeIdOf(m);
    var refers := ArrayUnder(m, "refersTo");
    var related := ArrayUnder(m, "relatedByCategory");
    var refRows := SliceTo(refers, MaxReferRows);
    var relRows := SliceTo(related, MaxRelatedRows);
    assert forall r :: r in refRows ==> r in refers;
    assert forall r :: r in relRows ==> r in related;
    RowsCite(medicineId, refRows, refers, "REFER_TO", ReferLead);
    RowsCite(medicineId, relRows, related, "RELATED", RelatedLead);
  }

  lemma {:induction false} MedicinesCite(medicines: seq<Json>)
    requires MedicinesEvidence(medicines).Success?
    ensures forall item :: item in MedicinesEvidence(medicines).value ==> CitesFrom(CitedUnion(medicines), item)
  {
    if medicines != [] {
      var init := medicines[..|medicines| - 1];
      var last := medicines[|medicines| - 1];
      MedicinesCite(init);
      MedicineCites(last);
    }
  }

  /** Cross-check of `generateEvidence` against `extractGraphFromResult`: when
      the result is an object whose `medicines` are Medicine entities, every
      edge id an evidence row cites for a row with an id is the id of an edge
      the extractor emits, since both build it as `mid-TYPE-rid`. */
  lemma EvidenceCitesExtractedEdges(result: Value)
    requires EvidenceF(result).Success?
    requires result.Some? && result.value.JObj? && !Truthy(NodeIdOf(result))
    requires forall m :: m in ArrayUnder(result, "medicines") ==> MedicineEntity(m)
    ensures forall item :: item in EvidenceF(result).value ==>
      item.edgeIds == []
      || (|item.edgeIds| == 1 && |item.nodeIds| == 1
          && (Truthy(item.nodeIds[0]) ==> HasEdge(ExtractF(result).edges, item.edgeIds[0])))
  {
    var first := SliceTo(ArrayUnder(result, "medicines"), MaxEvidence);
    var all := MedicinesEvidence(first).value;
    MedicinesCite(first);
    assert forall item :: item in EvidenceF(result).value ==> item in all;
    FirstMedicinesExtracted(result);
    TraverseConsistent(EmptyGraph, result.value, None);
  }

  /** The edges the first six medicines cite are all emitted by the traversal. */
  lemma FirstMedicinesExtracted(result: Value)
    requires result.Some? && result.value.JObj? && !Truthy(NodeIdOf(result))
    requires forall m :: m in ArrayUnder(result, "medicines") ==> MedicineEntity(m)
    ensures CitedUnion(SliceTo(ArrayUnder(result, "medicines"), MaxEvidence)) <= TraverseF(EmptyGraph, result.value, None).edgeIds
  {
    var medicines := ArrayUnder(result, "medicines");
    var first := SliceTo(medicines, MaxEvidence);
    var g := TraverseF(EmptyGraph, result.value, None);
    if medicines != [] {
      var fields := result.value.fields;
      LookupFinds(fields, "medicines");
      var k :| 0 <= k < |fields| && fields[k] == ("medicines", Lookup(fields, "medicines").value)
        && forall j :: 0 <= j < k ==> fields[j].0 != "medicines";
      FieldsCoverEdges(EmptyGraph, result.value, fields, None, k);
      forall m | m in first ensures CitedEdgeIds(m) <= g.edgeIds {
        CitedUnionOf(medicines, m);
      }
      CitedUnionWithin(first, g.edgeIds);
    } else {
      assert first == [];
    }
  }

  lemma {:induction false} CitedUnionWithin(medicines: seq<Json>, bound: set<string>)
    requires forall m :: m in medicines ==> CitedEdgeIds(m) <= bound
    ensures CitedUnion(medicines) <= bound
  {
    if medicines != [] {
      var init := medicines[..|medicines| - 1];
      assert medicines[|medicines| - 1] in medicines;
      assert forall m :: m in init ==> m in medicines;
      CitedUnionWithin(init, bound);
    }
  }

  // ---------------------------------------------------------------------
  // trimQueryResult

  /** The depth `trimQueryResult` walks to when no depth is given. */
  const DefaultTrimDepth: int := 3

  /** A key `trim` leaves out of the objects it copies. */
  predicate Hidden(key: string) {
    StartsWith(key, "__")
  }

  /** `trim(obj, depth)`: past `maxDepth`, and for primitives, the value is kept
      as it is; arrays are cut to `maxRows` and mapped; objects are copied entry
      by entry without their `__` keys. */
  function TrimF(obj: Json, depth: int, maxDepth: int, maxRows: int): Json
    decreases obj, 1
  {
    if depth > maxDepth then obj
    else
      match obj
      case JArr(items) => JArr(TrimItemsF(obj, SliceTo(items, maxRows), depth + 1, maxDepth, maxRows))
      case JObj(fields) => JObj(TrimFieldsF(obj, fields, depth + 1, maxDepth, maxRows))
      case _ => obj
  }

  function TrimItemsF(ghost parent: Json, items: seq<Json>, depth: int, maxDepth: int, maxRows: int): seq<Json>
    requires forall i :: 0 <= i < |items| ==> items[i] < parent
    decreases parent, 0, |items|
  {
    if items == [] then []
    else TrimItemsF(parent, items[..|items| - 1], depth, maxDepth, maxRows) + [TrimF(items[|items| - 1], depth, maxDepth, maxRows)]
  }

  function TrimFieldsF(ghost parent: Json, fields: seq<(string, Json)>, depth: int, maxDepth: int, maxRows: int): seq<(string, Json)>
    requires forall i :: 0 <= i < |fields| ==> fields[i].1 < parent
    decreases parent, 0, |fields|
  {
    if fields == [] then []
    else
      var last := fields[|fields| - 1];
      TrimFieldsF(parent, fields[..|fields| - 1], depth, maxDepth, maxRows)
      + (if Hidden(last.0) then [] else [(last.0, TrimF(last.1, depth, maxDepth, maxRows))])
  }

  /** `trimQueryResult(result, maxDepth)` with the row ceiling `maxRows`. */
  function TrimResultF(result: Value, maxDepth: int, maxRows: int): Value {
    if result.None? then None else Some(TrimF(result.value, 0, maxDepth, maxRows))
  }

  /** The entries of an object that are not `__` keys, in order. */
  function VisibleFields(fields: seq<(string, Json)>): (r: seq<(string, Json)>)
    ensures forall i :: 0 <= i < |r| ==> !Hidden(r[i].0) && r[i] in fields
  {
    if fields == [] then []
    else
      var last := fields[|fields| - 1];
      VisibleFields(fields[..|fields| - 1]) + (if Hidden(last.0) then [] else [last])
  }
  /** Dropping `__` keys keeps every other entry, in order: filtering a
      concatenation concatenates the filtered parts. */
  lemma {:induction false} VisibleAppend(a: seq<(string, Json)>, b: seq<(string, Json)>)
    ensures VisibleFields(a + b) == VisibleFields(a) + VisibleFields(b)
  {
    if b == [] {
      assert a + b == a;
    } else {
      var c := a + b;
      assert c[..|c| - 1] == a + b[..|b| - 1];
      assert c[|c| - 1] == b[|b| - 1];
      VisibleAppend(a, b[..|b| - 1]);
    }
  }

  /** A single entry survives exactly when its key is not a `__` key. */
  lemma VisibleOne(e: (string, Json))
    ensures VisibleFields([e]) == if Hidden(e.0) then [] else [e]
  {
    assert [e][..0] == [];
  }


  /** A tree as `trim` leaves it: down to `maxDepth`, arrays hold at most
      `maxRows` elements and objects have no `__` keys. */
  predicate TrimmedTree(j: Json, depth: int, maxDepth: int, maxRows: int)
    decreases j
  {
    depth > maxDepth
    || match j
       case JArr(items) =>
         |items| <= maxRows && forall i :: 0 <= i < |items| ==> TrimmedTree(items[i], depth + 1, maxDepth, maxRows)
       case JObj(fields) =>
         forall i :: 0 <= i < |fields| ==> !Hidden(fields[i].0) && TrimmedTree(fields[i].1, depth + 1, maxDepth, maxRows)
       case _ => true
  }

  lemma {:induction false} TrimItemsShape(parent: Json, items: seq<Json>, depth: int, maxDepth: int, maxRows: int)
    requires forall i :: 0 <= i < |items| ==> items[i] < parent
    ensures |TrimItemsF(parent, items, depth, maxDepth, maxRows)| == |items|
    ensures forall i :: 0 <= i < |items| ==>
      TrimItemsF(parent, items, depth, maxDepth, maxRows)[i] == TrimF(items[i], depth, maxDepth, maxRows)
  {
    if items != [] {
      TrimItemsShape(parent, items[..|items| - 1], depth, maxDepth, maxRows);
    }
  }

  lemma {:induction false} TrimFieldsShape(parent: Json, fields: seq<(string, Json)>, depth: int, maxDepth: int, maxRows: int)
    requires forall i :: 0 <= i < |fields| ==> fields[i].1 < parent
    ensures |TrimFieldsF(parent, fields, depth, maxDepth, maxRows)| == |VisibleFields(fields)|
    ensures forall i :: 0 <= i < |VisibleFields(fields)| ==>
      TrimFieldsF(parent, fields, depth, maxDepth, maxRows)[i]
        == (VisibleFields(fields)[i].0, TrimF(VisibleFields(fields)[i].1, depth, maxDepth, maxRows))
  {
    if fields != [] {
      TrimFieldsShape(parent, fields[..|fields| - 1], depth, maxDepth, maxRows);
    }
  }

  /** What `trim` does at each kind of node: past `maxDepth`, and for
      primitives, nothing; an array keeps its first `maxRows` elements (all of
      them when there are fewer), each trimmed one level deeper; an object
      keeps its non-`__` entries in order, each value trimmed one level deeper. */
  lemma TrimShape(obj: Json, depth: int, maxDepth: int, maxRows: int)
    ensures depth > maxDepth || !(obj.JArr? || obj.JObj?) ==> TrimF(obj, depth, maxDepth, maxRows) == obj
    ensures depth <= maxDepth && obj.JArr? ==>
      var r := TrimF(obj, depth, maxDepth, maxRows).items;
      && (0 <= maxRows ==> |r| == Min(maxRows, |obj.items|))
      && |r| <= |obj.items|
      && forall i :: 0 <= i < |r| ==> r[i] == TrimF(obj.items[i], depth + 1, maxDepth, maxRows)
    ensures depth <= maxDepth && obj.JObj? ==>
      var r := TrimF(obj, depth, maxDepth, maxRows).fields;
      var visible := VisibleFields(obj.fields);
      && |r| == |visible|
      && forall i :: 0 <= i < |r| ==> r[i] == (visible[i].0, TrimF(visible[i].1, depth + 1, maxDepth, maxRows))
  {
    if depth <= maxDepth {
      match obj
      case JArr(items) =>
        var kept := SliceTo(items, maxRows);
        TrimItemsShape(obj, kept, depth + 1, maxDepth, maxRows);
      case JObj(fields) =>
        TrimFieldsShape(obj, fields, depth + 1, maxDepth, maxRows);
      case _ =>
    }
  }

  /** With a row ceiling of at least 0, `trim` yields a trimmed tree. */
  lemma {:induction false} TrimEstablishes(obj: Json, depth: int, maxDepth: int, maxRows: int)
    requires 0 <= maxRows
    ensures TrimmedTree(TrimF(obj, depth, maxDepth, maxRows), depth, maxDepth, maxRows)
    decreases obj
  {
    if depth <= maxDepth {
      TrimShape(obj, depth, maxDepth, maxRows);
      match obj
      case JArr(items) =>
        var r := TrimF(obj, depth, maxDepth, maxRows).items;
        forall i | 0 <= i < |r| ensures TrimmedTree(r[i], depth + 1, maxDepth, maxRows) {
          TrimEstablishes(items[i], depth + 1, maxDepth, maxRows);
        }
      case JObj(fields) =>
        var r := TrimF(obj, depth, maxDepth, maxRows).fields;
        var visible := VisibleFields(fields);
        forall i | 0 <= i < |r| ensures !Hidden(r[i].0) && TrimmedTree(r[i].1, depth + 1, maxDepth, maxRows) {
          assert visible[i] in fields;
          TrimEstablishes(visible[i].1, depth + 1, maxDepth, maxRows);
        }
      case _ =>
    }
  }

  lemma {:induction false} VisibleOfVisible(fields: seq<(string, Json)>)
    requires forall i :: 0 <= i < |fields| ==> !Hidden(fields[i].0)
    ensures VisibleFields(fields) == fields
  {
    if fields != [] {
      VisibleOfVisible(fields[..|fields| - 1]);
    }
  }

  /** `trim` leaves a tree that is already trimmed as it is. */
  lemma {:induction false} TrimOfTrimmed(obj: Json, depth: int, maxDepth: int, maxRows: int)
    requires TrimmedTree(obj, depth, maxDepth, maxRows)
    ensures TrimF(obj, depth, maxDepth, maxRows) == obj
    decreases obj
  {
    if depth <= maxDepth {
      TrimShape(obj, depth, maxDepth, maxRows);
      match obj
      case JArr(items) =>
        var r := TrimF(obj, depth, maxDepth, maxRows).items;
        forall i | 0 <= i < |r| ensures r[i] == items[i] {
          TrimOfTrimmed(items[i], depth + 1, maxDepth, maxRows);
        }
        assert r == items;
      case JObj(fields) =>
        var r := TrimF(obj, depth, maxDepth, maxRows).fields;
        VisibleOfVisible(fields);
        forall i | 0 <= i < |r| ensures r[i] == fields[i] {
          TrimOfTrimmed(fields[i].1, depth + 1, maxDepth, maxRows);
        }
        assert r == fields;
      case _ =>
    }
  }

  /** Trimming twice with the same depth and a ceiling of at least 0 is trimming once. */
  lemma TrimIdempotent(result: Value, maxDepth: int, maxRows: int)
    requires 0 <= maxRows
    ensures TrimResultF(TrimResultF(result, maxDepth, maxRows), maxDepth, maxRows) == TrimResultF(result, maxDepth, maxRows)
  {
    if result.Some? {
      TrimEstablishes(result.value, 0, maxDepth, maxRows);
      TrimOfTrimmed(TrimF(result.value, 0, maxDepth, maxRows), 0, maxDepth, maxRows);
    }
  }

  /** A negative ceiling, which `slice` reads as "all but the last", removes
      more elements each time, so the ceiling bound above is needed. */
  lemma TrimNegativeRowsNotIdempotent()
    ensures var once := TrimResultF(Some(JArr([JNull, JNull])), DefaultTrimDepth, -1);
      TrimResultF(once, DefaultTrimDepth, -1) != once
  {
    var a := JArr([JNull, JNull]);
    assert SliceTo([JNull, JNull], -1) == [JNull];
    assert TrimF(a, 0, DefaultTrimDepth, -1) == JArr([JNull]);
    assert SliceTo([JNull], -1) == [];
    assert TrimF(JArr([JNull]), 0, DefaultTrimDepth, -1) == JArr([]);
  }

  /** `trim`, with the array `map` and the object copy as loops. */
  method Trim(obj: Json, depth: int, maxDepth: int, maxRows: int) returns (r: Json)
    ensures r == TrimF(obj, depth, maxDepth, maxRows)
    decreases obj
  {
    if depth > maxDepth {
      return obj;
    }
    match obj {
      case JArr(items) =>
        var kept := SliceTo(items, maxRows);
        assert forall i :: 0 <= i < |kept| ==> kept[i] == items[i];
        var out: seq<Json> := [];
        for i := 0 to |kept|
          invariant out == TrimItemsF(obj, kept[..i], depth + 1, maxDepth, maxRows)
        {
          var t := Trim(kept[i], depth + 1, maxDepth, maxRows);
          assert kept[..i + 1][..i] == kept[..i];
          out := out + [t];
        }
        assert kept[..|kept|] == kept;
        return JArr(out);
      case JObj(fields) =>
        var trimmed: seq<(string, Json)> := [];
        for i := 0 to |fields|
          invariant trimmed == TrimFieldsF(obj, fields[..i], depth + 1, maxDepth, maxRows)
        {
          var key := fields[i].0;
          assert fields[..i + 1][..i] == fields[..i];
          if !Hidden(key) {
            var t := Trim(fields[i].1, depth + 1, maxDepth, maxRows);
            trimmed := trimmed + [(key, t)];
          }
        }
        assert fields[..|fields|] == fields;
        return JObj(trimmed);
      case _ =>
        return obj;
    }
  }

  /** `trimQueryResult`. */
  method TrimQueryResult(result: Value, maxDepth: int, maxRows: int) returns (r: Value)
    ensures r == TrimResultF(result, maxDepth, maxRows)
    ensures 0 <= maxRows && r.Some? ==> TrimmedTree(r.value, 0, maxDepth, maxRows)
  {
    if result.None? {
      return None;
    }
    var t := Trim(result.value, 0, maxDepth, maxRows);
    if 0 <= maxRows {
      TrimEstablishes(result.value, 0, maxDepth, maxRows);
    }
    return Some(t);
  }
}
