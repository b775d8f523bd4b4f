/** The workflow canvas of src/components/ui/workflow-canvas.tsx: node and
    connection lists that every edit replaces with a mapped, filtered or
    extended copy, and the selected node, which is a copy of a node taken
    when it was clicked. */
module WorkflowCanvas {
  import opened Wrappers
  import opened Text

  datatype NodeKind = InputNode | AgentNode | ProcessNode | DatabaseNode | OutputNode | ConditionNode

  /** The kinds offered by the palette (`nodeTypes`): all but `condition`. */
  predicate InPalette(kind: NodeKind) {
    kind != ConditionNode
  }

  function KindName(kind: NodeKind): string {
    match kind
    case InputNode => "input"
    case AgentNode => "agent"
    case ProcessNode => "process"
    case DatabaseNode => "database"
    case OutputNode => "output"
    case ConditionNode => "condition"
  }

  /** `nodeTypes[type].label`. */
  function PaletteLabel(kind: NodeKind): string
    requires InPalette(kind)
  {
    match kind
    case InputNode => "Input"
    case AgentNode => "AI Agent"
    case ProcessNode => "Process"
    case DatabaseNode => "Database"
    case OutputNode => "Output"
  }

  /** A value in a node's configuration object. */
  datatype ConfigValue = TextValue(text: string) | NumberValue(number: real)

  type Config = map<string, ConfigValue>

  datatype Position = Position(x: real, y: real)

  /** `data`: the label and the optional configuration object. */
  datatype NodeData = NodeData(labelText: string, config: Option<Config>)

  datatype Node = Node(id: string, kind: NodeKind, position: Position, data: NodeData)

  datatype Connection = Connection(id: string, source: string, target: string)

  datatype Canvas = Canvas(nodes: seq<Node>, connections: seq<Connection>, selected: Option<Node>)

  /** `Array.prototype.filter`. */
  function Filter<T(!new)>(s: seq<T>, keep: T -> bool): (r: seq<T>)
    ensures |r| <= |s|
    ensures forall x :: x in r <==> x in s && keep(x)
  {
    if s == [] then []
    else (if keep(s[0]) then [s[0]] else []) + Filter(s[1..], keep)
  }

  /** Filtering keeps the order: filtering a concatenation is concatenating
      the filtered parts. */
  lemma {:induction false} FilterKeepsOrder<T(!new)>(a: seq<T>, b: seq<T>, keep: T -> bool)
    ensures Filter(a + b, keep) == Filter(a, keep) + Filter(b, keep)
  {
    if a == [] {
      assert a + b == b;
    } else {
      assert (a + b)[0] == a[0];
      assert (a + b)[1..] == a[1..] + b;
      FilterKeepsOrder(a[1..], b, keep);
    }
  }

  /** Filtering with a test every element passes changes nothing. */
  lemma {:induction false} FilterKeepsAll<T(!new)>(s: seq<T>, keep: T -> bool)
    requires forall x :: x in s ==> keep(x)
    ensures Filter(s, keep) == s
  {
    if s != [] {
      assert s[0] in s;
      assert forall x :: x in s[1..] ==> x in s;
      FilterKeepsAll(s[1..], keep);
    }
  }

  predicate HasNode(nodes: seq<Node>, id: string) {
    exists i :: 0 <= i < |nodes| && nodes[i].id == id
  }

  /** Every connection joins two nodes that are on the canvas. */
  predicate WellConnected(c: Canvas) {
    forall e :: e in c.connections ==> HasNode(c.nodes, e.source) && HasNode(c.nodes, e.target)
  }

  /** `deleteNode`: the node, every connection touching it, and the
      selection when it was that node. */
  function DeleteNode(c: Canvas, nodeId: string): (r: Canvas)
    ensures forall n :: n in r.nodes <==> n in c.nodes && n.id != nodeId
    ensures forall e :: e in r.connections <==> e in c.connections && e.source != nodeId && e.target != nodeId
    ensures r.selected.None? <==> c.selected.None? || c.selected.value.id == nodeId
    ensures r.selected.Some? ==> r.selected == c.selected
  {
    var selected := if c.selected.Some? && c.selected.value.id == nodeId then None else c.selected;
    Canvas(Filter(c.nodes, (n: Node) => n.id != nodeId),
           Filter(c.connections, (e: Connection) => e.source != nodeId && e.target != nodeId),
           selected)
  }

  /** Deleting a node never leaves a connection pointing at a missing node. */
  lemma DeleteKeepsConnectionsAttached(c: Canvas, nodeId: string)
    requires WellConnected(c)
    ensures WellConnected(DeleteNode(c, nodeId))
    ensures !HasNode(DeleteNode(c, nodeId).nodes, nodeId)
  {
    var r := DeleteNode(c, nodeId);
    forall e | e in r.connections
      ensures HasNode(r.nodes, e.source) && HasNode(r.nodes, e.target)
    {
      var i :| 0 <= i < |c.nodes| && c.nodes[i].id == e.source;
      assert c.nodes[i] in r.nodes;
      var j :| 0 <= j < |c.nodes| && c.nodes[j].id == e.target;
      assert c.nodes[j] in r.nodes;
    }
    forall i | 0 <= i < |r.nodes|
      ensures r.nodes[i].id != nodeId
    {
      assert r.nodes[i] in r.nodes;
    }
  }

  /** Deleting keeps the order of what remains: deleting from two lists
      placed one after the other is deleting from each of them in turn. */
  lemma DeleteKeepsOrder(a: Canvas, b: Canvas, nodeId: string)
    ensures DeleteNode(Canvas(a.nodes + b.nodes, a.connections + b.connections, a.selected), nodeId).nodes
              == DeleteNode(a, nodeId).nodes + DeleteNode(b, nodeId).nodes
    ensures DeleteNode(Canvas(a.nodes + b.nodes, a.connections + b.connections, a.selected), nodeId).connections
              == DeleteNode(a, nodeId).connections + DeleteNode(b, nodeId).connections
  {
    FilterKeepsOrder(a.nodes, b.nodes, (n: Node) => n.id != nodeId);
    FilterKeepsOrder(a.connections, b.connections, (e: Connection) => e.source != nodeId && e.target != nodeId);
  }

  /** Deleting an id no node has leaves the lists as they were. */
  lemma DeleteAbsentNode(c: Canvas, nodeId: string)
    requires WellConnected(c) && !HasNode(c.nodes, nodeId)
    ensures DeleteNode(c, nodeId).nodes == c.nodes
    ensures DeleteNode(c, nodeId).connections == c.connections
  {
    forall n | n in c.nodes
      ensures n.id != nodeId
    {
      var i :| 0 <= i < |c.nodes| && c.nodes[i] == n;
    }
    FilterKeepsAll(c.nodes, (n: Node) => n.id != nodeId);
    FilterKeepsAll(c.connections, (e: Connection) => e.source != nodeId && e.target != nodeId);
  }

  /** `handleNodeDrag`: only the position of the matching node changes. */
  function MoveNode(nodes: seq<Node>, nodeId: string, to: Position): (r: seq<Node>)
    ensures |r| == |nodes|
    ensures forall i :: 0 <= i < |nodes| ==>
              r[i].id == nodes[i].id && r[i].kind == nodes[i].kind && r[i].data == nodes[i].data
    ensures forall i :: 0 <= i < |nodes| ==> r[i].position == if nodes[i].id == nodeId then to else nodes[i].position
  {
    seq(|nodes|, i requires 0 <= i < |nodes| =>
      if nodes[i].id == nodeId then nodes[i].(position := to) else nodes[i])
  }

  /** `{ ...node.data.config, ...config }`: spreading a missing config adds nothing. */
  function MergeConfig(current: Option<Config>, update: Config): (r: Config)
    ensures forall k :: k in r <==> k in update || (current.Some? && k in current.value)
    ensures forall k :: k in update ==> r[k] == update[k]
    ensures forall k :: k !in update && current.Some? && k in current.value ==> r[k] == current.value[k]
  {
    (if current.Some? then current.value else map[]) + update
  }

  /** `updateNodeConfig`: the matching nodes get the merged configuration. */
  function UpdateNodeConfig(nodes: seq<Node>, nodeId: string, update: Config): (r: seq<Node>)
    ensures |r| == |nodes|
    ensures forall i :: 0 <= i < |nodes| && nodes[i].id != nodeId ==> r[i] == nodes[i]
    ensures forall i :: 0 <= i < |nodes| && nodes[i].id == nodeId ==>
              r[i] == nodes[i].(data := nodes[i].data.(config := Some(MergeConfig(nodes[i].data.config, update))))
  {
    seq(|nodes|, i requires 0 <= i < |nodes| =>
      if nodes[i].id == nodeId
      then nodes[i].(data := nodes[i].data.(config := Some(MergeConfig(nodes[i].data.config, update))))
      else nodes[i])
  }

  /** Merging the same update twice is merging it once. */
  lemma MergeConfigIdempotent(current: Option<Config>, update: Config)
    ensures MergeConfig(Some(MergeConfig(current, update)), update) == MergeConfig(current, update)
  {
  }

  /** The selection is a copy: a configuration change reaches the node in
      the list but not the selected copy, which the edit leaves as it was. */
  lemma SelectionMissesConfigChange(n: Node, update: Config)
    requires n.data.config.None? && update != map[]
    ensures var c := Canvas([n], [], Some(n));
            var after := c.(nodes := UpdateNodeConfig(c.nodes, n.id, update));
            after.selected == Some(n) && after.nodes[0].data.config == Some(update) && after.nodes[0] != n
  {
    assert MergeConfig(None, update) == update;
  }

  /** `addNode`: one node appended, with the palette label and no config. */
  function AddNode(nodes: seq<Node>, kind: NodeKind, at: Position, now: int): (r: seq<Node>)
    requires InPalette(kind)
    ensures |r| == |nodes| + 1 && r[..|nodes|] == nodes
    ensures r[|nodes|] == Node(KindName(kind) + "-" + IntToString(now), kind, at, NodeData(PaletteLabel(kind), None))
  {
    nodes + [Node(KindName(kind) + "-" + IntToString(now), kind, at, NodeData(PaletteLabel(kind), None))]
  }

  /** Adding or moving a node keeps every connection attached. */
  lemma EditsKeepConnectionsAttached(c: Canvas, kind: NodeKind, at: Position, now: int, nodeId: string)
    requires WellConnected(c) && InPalette(kind)
    ensures WellConnected(c.(nodes := AddNode(c.nodes, kind, at, now)))
    ensures WellConnected(c.(nodes := MoveNode(c.nodes, nodeId, at)))
  {
    var added := AddNode(c.nodes, kind, at, now);
    var moved := MoveNode(c.nodes, nodeId, at);
    forall e | e in c.connections
      ensures HasNode(added, e.source) && HasNode(added, e.target)
      ensures HasNode(moved, e.source) && HasNode(moved, e.target)
    {
      var i :| 0 <= i < |c.nodes| && c.nodes[i].id == e.source;
      assert added[i].id == e.source && moved[i].id == e.source;
      var j :| 0 <= j < |c.nodes| && c.nodes[j].id == e.target;
      assert added[j].id == e.target && moved[j].id == e.target;
    }
  }

  /** The label input of the properties panel (shown only with a
      selection): the matching nodes and the selected copy get the label. */
  function EditLabel(c: Canvas, newLabel: string): (r: Canvas)
    requires c.selected.Some?
    ensures |r.nodes| == |c.nodes| && r.connections == c.connections
    ensures forall i :: 0 <= i < |c.nodes| ==>
              r.nodes[i] == if c.nodes[i].id == c.selected.value.id
                            then c.nodes[i].(data := c.nodes[i].data.(labelText := newLabel)) else c.nodes[i]
    ensures r.selected == Some(c.selected.value.(data := c.selected.value.data.(labelText := newLabel)))
  {
    var sel := c.selected.value;
    Canvas(seq(|c.nodes|, i requires 0 <= i < |c.nodes| =>
             if c.nodes[i].id == sel.id then c.nodes[i].(data := c.nodes[i].data.(labelText := newLabel)) else c.nodes[i]),
           c.connections,
           Some(sel.(data := sel.data.(labelText := newLabel))))
  }

  /** After a label edit the selected copy and every matching node show the
      same label. */
  lemma LabelEditAgrees(c: Canvas, newLabel: string)
    requires c.selected.Some?
    ensures var r := EditLabel(c, newLabel);
            r.selected.value.data.labelText == newLabel
            && forall n :: n in r.nodes && n.id == c.selected.value.id ==> n.data.labelText == newLabel
  {
  }

  /** `nodes.find`: the first node with the id. */
  function FindNode(nodes: seq<Node>, id: string): (r: Option<Node>)
    ensures r.None? <==> !HasNode(nodes, id)
    ensures r.Some? ==> r.value.id == id && r.value in nodes
    ensures r.Some? ==> exists i :: 0 <= i < |nodes| && nodes[i] == r.value && forall j :: 0 <= j < i ==> nodes[j].id != id
  {
    if nodes == [] then None
    else if nodes[0].id == id then Some(nodes[0])
    else
      var rest := FindNode(nodes[1..], id);
      assert HasNode(nodes[1..], id) ==> HasNode(nodes, id) by {
        if HasNode(nodes[1..], id) {
          var i :| 0 <= i < |nodes[1..]| && nodes[1..][i].id == id;
          assert nodes[i + 1].id == id;
        }
      }
      assert rest.Some? ==> exists i :: 0 <= i < |nodes| && nodes[i] == rest.value && forall j :: 0 <= j < i ==> nodes[j].id != id by {
        if rest.Some? {
          var i :| 0 <= i < |nodes[1..]| && nodes[1..][i] == rest.value && forall j :: 0 <= j < i ==> nodes[1..][j].id != id;
          assert nodes[i + 1] == rest.value;
          forall j | 0 <= j < i + 1
            ensures nodes[j].id != id
          {
            if j > 0 {
              assert nodes[j] == nodes[1..][j - 1];
            }
          }
        }
      }
      rest
  }

  datatype Path = Path(startX: real, startY: real, endX: real, endY: real)

  /** `renderConnection`: nothing when an endpoint is missing; otherwise a
      path from the right edge of the source to the left edge of the target. */
  function ConnectionPath(nodes: seq<Node>, e: Connection): (r: Option<Path>)
    ensures r.None? <==> !HasNode(nodes, e.source) || !HasNode(nodes, e.target)
    ensures r.Some? ==>
              var s := FindNode(nodes, e.source).value;
              var t := FindNode(nodes, e.target).value;
              r.value == Path(s.position.x + 40.0, s.position.y, t.position.x - 40.0, t.position.y)
  {
    var s := FindNode(nodes, e.source);
    var t := FindNode(nodes, e.target);
    if s.None? || t.None? then None
    else Some(Path(s.value.position.x + 40.0, s.value.position.y, t.value.position.x - 40.0, t.value.position.y))
  }

  /** On a well-connected canvas every connection is drawn. */
  lemma WellConnectedDrawsAll(c: Canvas)
    requires WellConnected(c)
    ensures forall e :: e in c.connections ==> ConnectionPath(c.nodes, e).Some?
  {
  }
}
