/**
  The Mermaid diagram of the code entities a conversation mentions: the
  guards that stop early with a one-node notice, mention detection over
  the stored transcript, the subgraph of mentioned nodes (optionally with
  their neighbours), identifier sanitising, grouping by file, and the
  diagram lines.
 */
module Visualization {
  import opened Wrappers
  import opened Text
  import opened Seqs
  import opened KnowledgeGraph
  import opened Transcript
  import opened Tools

  /** A one-node diagram carrying a message. */
  function Notice(text: string): string {
    "```mermaid\ngraph TD;\n  A[" + text + "];\n```"
  }

  /** The function returns a diagram, or an exception escapes it (reading the
      graph file is not guarded). */
  datatype Visual = Shown(markdown: string) | Escaped(error: string)

  // ---------------------------------------------------------------------
  // Nodes and mentions

  /** `{node['id']: node for node in nodes}`: a later node with an id replaces
      an earlier one. */
  function NodeMap(nodes: seq<Node>): (m: map<string, Node>)
    ensures forall id :: id in m <==> exists n :: n in nodes && n.id == id
    decreases |nodes|
  {
    if nodes == [] then map[]
    else
      var last := nodes[|nodes| - 1];
      NodeMap(nodes[..|nodes| - 1])[last.id := last]
  }

  /** Ids are unique in a graph the builder wrote, so there each id maps to its own node. */
  lemma {:induction false} NodeMapOfUniqueIds(nodes: seq<Node>, k: nat)
    requires forall i, j :: 0 <= i < j < |nodes| ==> nodes[i].id != nodes[j].id
    requires k < |nodes|
    ensures NodeMap(nodes)[nodes[k].id] == nodes[k]
    decreases |nodes|
  {
    if k < |nodes| - 1 {
      NodeMapOfUniqueIds(nodes[..|nodes| - 1], k);
    }
  }

  /** `"".join(query + response for each row)` */
  function AllText(rows: seq<Row>): string
    decreases |rows|
  {
    if rows == [] then ""
    else
      var last := rows[|rows| - 1];
      AllText(rows[..|rows| - 1]) + last.query + last.response
  }

  /** The node ids that occur anywhere in the conversation text. */
  function Mentioned(ids: set<string>, text: string): set<string> {
    set id | id in ids && Contains(text, id)
  }

  lemma {:induction false} AllTextAppend(a: seq<Row>, b: seq<Row>)
    ensures AllText(a + b) == AllText(a) + AllText(b)
    decreases |b|
  {
    if b == [] {
      assert a + b == a;
    } else {
      var p, x := b[..|b| - 1], b[|b| - 1];
      AllTextAppend(a, p);
      SnocSplit(a, b);
      AllTextSnoc(a + b);
      AllTextSnoc(b);
      AppendAssoc(AllText(a), AllText(p), x.query);
      AppendAssoc(AllText(a), AllText(p) + x.query, x.response);
    }
  }

  /** The text of a non-empty conversation ends with its last row's query and response. */
  lemma AllTextSnoc(rows: seq<Row>)
    requires rows != []
    ensures AllText(rows) == AllText(rows[..|rows| - 1]) + rows[|rows| - 1].query + rows[|rows| - 1].response
  {
  }

  /** The text of row `k` sits between the text of the rows before and after it. */
  lemma AllTextAround(rows: seq<Row>, k: nat)
    requires k < |rows|
    ensures AllText(rows) == AllText(rows[..k]) + (rows[k].query + rows[k].response) + AllText(rows[k + 1..])
  {
    var upto, after := rows[..k + 1], rows[k + 1..];
    SplitAt(rows, k + 1);
    AllTextAppend(upto, after);
    AllTextStep(rows, k);
    AppendAssoc(AllText(rows[..k]), rows[k].query, rows[k].response);
  }

  lemma AllTextStep(rows: seq<Row>, k: nat)
    requires k < |rows|
    ensures AllText(rows[..k + 1]) == AllText(rows[..k]) + rows[k].query + rows[k].response
  {
    assert rows[..k + 1][..k] == rows[..k];
  }

  lemma ContainsWithin(a: string, s: string, b: string, sub: string)
    requires Contains(s, sub)
    ensures Contains(a + s + b, sub)
  {
    var i :| 0 <= i <= |s| && OccursAt(s, sub, i);
    assert (a + s + b)[|a| + i..|a| + i + |sub|] == s[i..i + |sub|];
    assert OccursAt(a + s + b, sub, |a| + i);
  }

  /** A node whose id occurs in any one query or response of the conversation
      counts as mentioned. */
  lemma MentionInRow(ids: set<string>, rows: seq<Row>, k: nat, id: string)
    requires k < |rows| && id in ids
    requires Contains(rows[k].query, id) || Contains(rows[k].response, id)
    ensures id in Mentioned(ids, AllText(rows))
  {
    RowTextInAll(rows, k, id);
  }

  lemma RowTextInAll(rows: seq<Row>, k: nat, id: string)
    requires k < |rows|
    requires Contains(rows[k].query, id) || Contains(rows[k].response, id)
    ensures Contains(AllText(rows), id)
  {
    var q, r := rows[k].query, rows[k].response;
    RowTextContains(q, r, id);
    AllTextAround(rows, k);
    ContainsWithin(AllText(rows[..k]), q + r, AllText(rows[k + 1..]), id);
  }

  lemma RowTextContains(q: string, r: string, id: string)
    requires Contains(q, id) || Contains(r, id)
    ensures Contains(q + r, id)
  {
    if Contains(q, id) {
      var i :| 0 <= i <= |q| && OccursAt(q, id, i);
      assert (q + r)[i..i + |id|] == q[i..i + |id|];
      assert OccursAt(q + r, id, i);
    } else {
      var i :| 0 <= i <= |r| && OccursAt(r, id, i);
      assert (q + r)[|q| + i..|q| + i + |id|] == r[i..i + |id|];
      assert OccursAt(q + r, id, |q| + i);
    }
  }

  // ---------------------------------------------------------------------
  // The subgraph

  /** Edges kept with neighbours: those touching a mentioned node. */
  function Touching(mentioned: set<string>): Edge -> bool {
    (e: Edge) => e.source in mentioned || e.target in mentioned
  }

  /** Edges kept without neighbours: those between two mentioned nodes. */
  function Between(mentioned: set<string>): Edge -> bool {
    (e: Edge) => e.source in mentioned && e.target in mentioned
  }

  function KeptEdges(edges: seq<Edge>, mentioned: set<string>, showNeighbors: bool): seq<Edge> {
    Filter(edges, if showNeighbors then Touching(mentioned) else Between(mentioned))
  }

  /** The nodes at either end of some edge. */
  function Endpoints(edges: seq<Edge>): set<string>
    decreases |edges|
  {
    if edges == [] then {}
    else
      var last := edges[|edges| - 1];
      Endpoints(edges[..|edges| - 1]) + {last.source, last.target}
  }

  lemma {:induction false} EndpointsMembers(edges: seq<Edge>)
    ensures forall x :: x in Endpoints(edges) <==> exists e :: e in edges && (e.source == x || e.target == x)
    decreases |edges|
  {
    if edges != [] {
      EndpointsMembers(edges[..|edges| - 1]);
      assert edges == edges[..|edges| - 1] + [edges[|edges| - 1]];
    }
  }

  function SubgraphNodes(edges: seq<Edge>, mentioned: set<string>, showNeighbors: bool): set<string> {
    mentioned + Endpoints(KeptEdges(edges, mentioned, showNeighbors))
  }

  /** The edge scan: collects the kept edges in graph order and the nodes they reach. */
  method ExtractSubgraph(edges: seq<Edge>, mentioned: set<string>, showNeighbors: bool)
    returns (nodes: set<string>, kept: seq<Edge>)
    ensures kept == KeptEdges(edges, mentioned, showNeighbors)
    ensures nodes == SubgraphNodes(edges, mentioned, showNeighbors)
  {
    nodes := mentioned;
    kept := [];
    for i := 0 to |edges|
      invariant kept == KeptEdges(edges[..i], mentioned, showNeighbors)
      invariant showNeighbors ==> nodes == mentioned + Endpoints(kept)
      invariant !showNeighbors ==> nodes == mentioned
    {
      var e := edges[i];
      assert edges[..i + 1][..i] == edges[..i];
      assert (kept + [e])[..|kept|] == kept;
      if showNeighbors {
        if e.source in mentioned || e.target in mentioned {
          nodes := nodes + {e.source, e.target};
          kept := kept + [e];
        }
      } else {
        if e.source in nodes && e.target in nodes {
          kept := kept + [e];
        }
      }
    }
    assert edges[..|edges|] == edges;
    if !showNeighbors {
      nodes := nodes + Endpoints(kept);
    }
  }

  /** Which edges are kept and which nodes the subgraph holds: without
      neighbours exactly the mentioned nodes and the edges among them; with
      neighbours also every node one edge away, through the edges that touch a
      mentioned node. Every kept edge joins two nodes of the subgraph. */
  lemma SubgraphProperties(edges: seq<Edge>, mentioned: set<string>, showNeighbors: bool)
    ensures forall e :: e in KeptEdges(edges, mentioned, showNeighbors) <==>
      e in edges && (if showNeighbors then e.source in mentioned || e.target in mentioned
                     else e.source in mentioned && e.target in mentioned)
    ensures mentioned <= SubgraphNodes(edges, mentioned, showNeighbors)
    ensures !showNeighbors ==> SubgraphNodes(edges, mentioned, showNeighbors) == mentioned
    ensures forall x :: x in SubgraphNodes(edges, mentioned, showNeighbors) <==>
      x in mentioned || exists e :: e in KeptEdges(edges, mentioned, showNeighbors) && (e.source == x || e.target == x)
    ensures forall e :: e in KeptEdges(edges, mentioned, showNeighbors) ==>
      e.source in SubgraphNodes(edges, mentioned, showNeighbors) && e.target in SubgraphNodes(edges, mentioned, showNeighbors)
  {
    var p := if showNeighbors then Touching(mentioned) else Between(mentioned);
    var kept := KeptEdges(edges, mentioned, showNeighbors);
    FilterMembers(edges, p);
    EndpointsMembers(kept);
    forall e | e in kept
      ensures e.source in Endpoints(kept) && e.target in Endpoints(kept)
    {
    }
  }

  // ---------------------------------------------------------------------
  // Diagram text

  function SafeChar(c: char): char {
    if c == '.' || c == '-' || c == ' ' then '_' else c
  }

  /** `safe`: '.', '-' and ' ' become '_'. */
  function Safe(id: string): (s: string)
    ensures |s| == |id|
    ensures forall i :: 0 <= i < |id| ==> s[i] == SafeChar(id[i])
  {
    seq(|id|, i requires 0 <= i < |id| => SafeChar(id[i]))
  }

  /** A sanitised id holds none of the three characters, sanitising again
      changes nothing, and ids that differ only in those characters draw the
      same diagram node. */
  lemma SafeProperties(id: string)
    ensures '.' !in Safe(id) && '-' !in Safe(id) && ' ' !in Safe(id)
    ensures Safe(Safe(id)) == Safe(id)
    ensures forall i :: 0 <= i < |id| && id[i] !in {'.', '-', ' '} ==> Safe(id)[i] == id[i]
    ensures Safe("a.b") == Safe("a-b") == Safe("a b") == Safe("a_b")
  {
    assert Safe("a_b") == "a_b";
  }

  /** The group a node is drawn in: `Files` for a file node, the node's file for
      a class or function, `unknown` for an id that is not a node of the graph. */
  function GroupOf(id: string, nodeMap: map<string, Node>): (g: string)
    ensures id !in nodeMap ==> g == "unknown"
    ensures id in nodeMap && nodeMap[id].kind == File ==> g == "Files"
    ensures id in nodeMap && nodeMap[id].kind != File ==> g == nodeMap[id].file
  {
    if id !in nodeMap then "unknown"
    else if nodeMap[id].kind == File then "Files"
    else nodeMap[id].file
  }

  /** Groups other than `Files` and `unknown` are drawn as Mermaid subgraphs. */
  predicate Named(g: string) {
    g != "unknown" && g != "Files"
  }

  /** The keys of `files_to_nodes` in insertion order: each group in the order
      its first node is visited. */
  function GroupOrder(ids: seq<string>, nodeMap: map<string, Node>): seq<string>
    decreases |ids|
  {
    if ids == [] then []
    else
      var prev := GroupOrder(ids[..|ids| - 1], nodeMap);
      var g := GroupOf(ids[|ids| - 1], nodeMap);
      if g in prev then prev else prev + [g]
  }

  /** `files_to_nodes[g]`: the visited nodes of group `g`, in visiting order. */
  function Members(ids: seq<string>, g: string, nodeMap: map<string, Node>): seq<string>
    decreases |ids|
  {
    if ids == [] then []
    else
      var last := ids[|ids| - 1];
      Members(ids[..|ids| - 1], g, nodeMap) + (if GroupOf(last, nodeMap) == g then [last] else [])
  }

  lemma {:induction false} MembersOf(ids: seq<string>, g: string, nodeMap: map<string, Node>)
    ensures forall x :: x in Members(ids, g, nodeMap) <==> x in ids && GroupOf(x, nodeMap) == g
    ensures NoDuplicates(ids) ==> NoDuplicates(Members(ids, g, nodeMap))
    decreases |ids|
  {
    if ids != [] {
      var prefix := ids[..|ids| - 1];
      MembersOf(prefix, g, nodeMap);
      assert ids == prefix + [ids[|ids| - 1]];
    }
  }

  lemma {:induction false} MembersEmpty(ids: seq<string>, g: string, nodeMap: map<string, Node>)
    requires forall x :: x in ids ==> GroupOf(x, nodeMap) != g
    ensures Members(ids, g, nodeMap) == []
    decreases |ids|
  {
    if ids != [] {
      MembersEmpty(ids[..|ids| - 1], g, nodeMap);
    }
  }

  lemma {:induction false} GroupOrderOf(ids: seq<string>, nodeMap: map<string, Node>)
    ensures NoDuplicates(GroupOrder(ids, nodeMap))
    ensures forall g :: g in GroupOrder(ids, nodeMap) <==> exists x :: x in ids && GroupOf(x, nodeMap) == g
    decreases |ids|
  {
    if ids != [] {
      var prefix := ids[..|ids| - 1];
      GroupOrderOf(prefix, nodeMap);
      assert ids == prefix + [ids[|ids| - 1]];
    }
  }

  /** Grouping partitions the visited nodes: the groups are distinct, each
      node is listed in the group `GroupOf` names for it and in no other,
      and, when the nodes are visited once each, once there. */
  lemma GroupingPartition(ids: seq<string>, nodeMap: map<string, Node>)
    ensures NoDuplicates(GroupOrder(ids, nodeMap))
    ensures forall x :: x in ids ==> GroupOf(x, nodeMap) in GroupOrder(ids, nodeMap)
    ensures forall g, x :: x in Members(ids, g, nodeMap) <==> x in ids && GroupOf(x, nodeMap) == g
    ensures NoDuplicates(ids) ==> forall g :: NoDuplicates(Members(ids, g, nodeMap))
  {
    GroupOrderOf(ids, nodeMap);
    forall g {
      MembersOf(ids, g, nodeMap);
    }
  }

  /** A node's line: its shape follows its type; an id outside the graph is a plain box. */
  function NodeLine(id: string, nodeMap: map<string, Node>): string {
    var s := "    " + Safe(id);
    if id !in nodeMap then s + "[" + id + "]"
    else match nodeMap[id].kind
      case File => s + "[[" + id + "]]:::fileNode"
      case Class => s + "{{" + id + "}}:::classNode"
      case Function => s + "(" + id + "):::funcNode"
  }

  function NodeLines(ids: seq<string>, nodeMap: map<string, Node>): (lines: seq<string>)
    ensures |lines| == |ids|
    ensures forall i :: 0 <= i < |ids| ==> lines[i] == NodeLine(ids[i], nodeMap)
  {
    seq(|ids|, i requires 0 <= i < |ids| => NodeLine(ids[i], nodeMap))
  }

  function OpenLine(g: string): string {
    "  subgraph " + Safe(g) + " [" + g + "]"
  }

  const EndLine := "  end"

  /** A group's lines: its node lines, inside `subgraph ... end` when the group is named. */
  function Block(g: string, members: seq<string>, nodeMap: map<string, Node>): seq<string> {
    (if Named(g) then [OpenLine(g)] else []) + NodeLines(members, nodeMap) + (if Named(g) then [EndLine] else [])
  }

  function Blocks(order: seq<string>, ids: seq<string>, nodeMap: map<string, Node>): seq<string>
    decreases |order|
  {
    if order == [] then []
    else
      var g := order[|order| - 1];
      Blocks(order[..|order| - 1], ids, nodeMap) + Block(g, Members(ids, g, nodeMap), nodeMap)
  }

  /** An edge's line, labelled with its type, between the sanitised ids. */
  function EdgeLine(e: Edge): string {
    "  " + Safe(e.source) + " -->|" + e.kind.Name() + "| " + Safe(e.target)
  }

  function EdgeLines(edges: seq<Edge>): (lines: seq<string>)
    ensures |lines| == |edges|
    ensures forall i :: 0 <= i < |edges| ==> lines[i] == EdgeLine(edges[i])
  {
    seq(|edges|, i requires 0 <= i < |edges| => EdgeLine(edges[i]))
  }

  const HeaderLines: seq<string> := [
    "graph TD",
    "  %% Dark Theme Styles",
    "  classDef fileNode fill:#1e3a5f,stroke:#4fc3f7,stroke-width:2px,color:#fff;",
    "  classDef classNode fill:#5d4037,stroke:#ffb74d,stroke-width:2px,color:#fff;",
    "  classDef funcNode fill:#2e4a3a,stroke:#81c784,stroke-width:2px,color:#fff;",
    "  classDef default fill:#37474f,stroke:#90a4ae,stroke-width:1px,color:#fff;"
  ]

  /** The diagram lines for the subgraph nodes visited in the order `ids`. */
  function DiagramLines(ids: seq<string>, kept: seq<Edge>, nodeMap: map<string, Node>): seq<string> {
    HeaderLines + Blocks(GroupOrder(ids, nodeMap), ids, nodeMap) + EdgeLines(kept)
  }

  function Markdown(lines: seq<string>): string {
    "```mermaid\n" + Join(lines, "\n") + "\n```"
  }

  // ---------------------------------------------------------------------
  // Building the diagram

  /** `ids` lists every element of `nodes` once: the order in which a Python
      set happens to be iterated. */
  ghost predicate Enumerates(ids: seq<string>, nodes: set<string>) {
    NoDuplicates(ids) && forall x :: x in ids <==> x in nodes
  }

  /** Iterating over a set: some order, each element once. */
  method Enumerate(nodes: set<string>) returns (ids: seq<string>)
    ensures Enumerates(ids, nodes)
  {
    ids := [];
    var rest := nodes;
    while rest != {}
      invariant rest <= nodes
      invariant NoDuplicates(ids)
      invariant forall x :: x in ids <==> x in nodes && x !in rest
      decreases |rest|
    {
      var x :| x in rest;
      ids := ids + [x];
      rest := rest - {x};
    }
  }

  /** Visiting one more node extends its group, or opens the group when it is new. */
  lemma GroupStep(ids: seq<string>, i: nat, nodeMap: map<string, Node>)
    requires i < |ids|
    ensures var g := GroupOf(ids[i], nodeMap);
      var order := GroupOrder(ids[..i], nodeMap);
      GroupOrder(ids[..i + 1], nodeMap) == (if g in order then order else order + [g])
      && (g !in order ==> Members(ids[..i], g, nodeMap) == [])
      && forall h :: Members(ids[..i + 1], h, nodeMap) ==
           Members(ids[..i], h, nodeMap) + (if h == g then [ids[i]] else [])
  {
    assert ids[..i + 1][..i] == ids[..i];
    var g := GroupOf(ids[i], nodeMap);
    if g !in GroupOrder(ids[..i], nodeMap) {
      MembersOf(ids[..i], g, nodeMap);
      GroupOrderOf(ids[..i], nodeMap);
      MembersEmpty(ids[..i], g, nodeMap);
    }
  }

  /** The loop that fills `files_to_nodes`. */
  method GroupNodes(ids: seq<string>, nodeMap: map<string, Node>)
    returns (order: seq<string>, groups: map<string, seq<string>>)
    ensures order == GroupOrder(ids, nodeMap)
    ensures forall g :: g in groups <==> g in order
    ensures forall g :: g in order ==> groups[g] == Members(ids, g, nodeMap)
  {
    order := [];
    groups := map[];
    for i := 0 to |ids|
      invariant order == GroupOrder(ids[..i], nodeMap)
      invariant forall g :: g in groups <==> g in order
      invariant forall g :: g in order ==> groups[g] == Members(ids[..i], g, nodeMap)
    {
      var id := ids[i];
      var g := GroupOf(id, nodeMap);
      GroupStep(ids, i, nodeMap);
      if g !in groups {
        groups := groups[g := []];
        order := order + [g];
      }
      groups := groups[g := groups[g] + [id]];
    }
    assert ids[..|ids|] == ids;
  }

  /** The lines of one group. */
  method RenderGroup(g: string, members: seq<string>, nodeMap: map<string, Node>) returns (block: seq<string>)
    ensures block == Block(g, members, nodeMap)
  {
    var open := if Named(g) then [OpenLine(g)] else [];
    block := open;
    for j := 0 to |members|
      invariant block == open + NodeLines(members[..j], nodeMap)
    {
      NodeLinesStep(open, members, j, nodeMap, block);
      block := block + [NodeLine(members[j], nodeMap)];
    }
    assert members[..|members|] == members;
    if Named(g) {
      block := block + [EndLine];
    }
  }

  /** One more member's line follows the lines written so far. */
  lemma NodeLinesStep(open: seq<string>, members: seq<string>, j: nat, nodeMap: map<string, Node>, block: seq<string>)
    requires j < |members|
    requires block == open + NodeLines(members[..j], nodeMap)
    ensures block + [NodeLine(members[j], nodeMap)] == open + NodeLines(members[..j + 1], nodeMap)
  {
    var line := NodeLine(members[j], nodeMap);
    assert NodeLines(members[..j + 1], nodeMap) == NodeLines(members[..j], nodeMap) + [line];
    assert (open + NodeLines(members[..j], nodeMap)) + [line] == open + (NodeLines(members[..j], nodeMap) + [line]);
  }

  /** The header, the group blocks in `order`, then one line per kept edge. */
  method RenderLines(ghost ids: seq<string>, order: seq<string>, groups: map<string, seq<string>>,
                     kept: seq<Edge>, nodeMap: map<string, Node>) returns (lines: seq<string>)
    requires forall g :: g in order ==> g in groups && groups[g] == Members(ids, g, nodeMap)
    ensures lines == HeaderLines + Blocks(order, ids, nodeMap) + EdgeLines(kept)
  {
    lines := HeaderLines;
    for k := 0 to |order|
      invariant lines == HeaderLines + Blocks(order[..k], ids, nodeMap)
    {
      var block := RenderGroup(order[k], groups[order[k]], nodeMap);
      BlocksStep(HeaderLines, order, k, ids, nodeMap, lines);
      lines := lines + block;
    }
    assert order[..|order|] == order;
    var body := lines;
    for k := 0 to |kept|
      invariant lines == body + EdgeLines(kept[..k])
    {
      EdgeLinesStep(kept, k, body, lines);
      lines := lines + [EdgeLine(kept[k])];
    }
    assert kept[..|kept|] == kept;
  }

  /** One more group's block follows the blocks written so far. */
  lemma BlocksStep(head: seq<string>, order: seq<string>, k: nat, ids: seq<string>, nodeMap: map<string, Node>, lines: seq<string>)
    requires k < |order|
    requires lines == head + Blocks(order[..k], ids, nodeMap)
    ensures lines + Block(order[k], Members(ids, order[k], nodeMap), nodeMap)
         == head + Blocks(order[..k + 1], ids, nodeMap)
  {
    BlocksLast(order[..k + 1], ids, nodeMap);
    assert order[..k + 1][..k] == order[..k];
    AppendAssoc(head, Blocks(order[..k], ids, nodeMap), Block(order[k], Members(ids, order[k], nodeMap), nodeMap));
  }

  /** The blocks of a non-empty order end with the block of its last group. */
  lemma BlocksLast(order: seq<string>, ids: seq<string>, nodeMap: map<string, Node>)
    requires order != []
    ensures Blocks(order, ids, nodeMap)
         == Blocks(order[..|order| - 1], ids, nodeMap) + Block(order[|order| - 1], Members(ids, order[|order| - 1], nodeMap), nodeMap)
  {
  }

  /** One more edge's line follows the edge lines written so far. */
  lemma EdgeLinesStep(kept: seq<Edge>, k: nat, body: seq<string>, lines: seq<string>)
    requires k < |kept|
    requires lines == body + EdgeLines(kept[..k])
    ensures lines + [EdgeLine(kept[k])] == body + EdgeLines(kept[..k + 1])
  {
    assert EdgeLines(kept[..k + 1]) == EdgeLines(kept[..k]) + [EdgeLine(kept[k])];
  }

  // ---------------------------------------------------------------------
  // generate_visualization

  /** The guards before any drawing: a notice, an escaping exception, or the
      graph and the mentioned node ids to draw. */
  datatype Prepared = Stop(result: Visual) | Ready(graph: Graph, mentioned: set<string>)

  /** `rows` is what loading the conversation gives (an empty list also when
      the database fails). */
  function Prepare(conversationId: string, repoPath: string, rows: seq<Row>, disk: Disk, codec: Codec): Prepared {
    if conversationId == "" then Stop(Shown(Notice("No conversation selected.")))
    else if repoPath == "" then Stop(Shown(Notice("No repository selected.")))
    else
      var path := GraphPath(codec.hash, disk.cwd, repoPath);
      if path.None? || !disk.Exists(path.value) then
        Stop(Shown(Notice("Knowledge graph not found. Please build it on the Ingest page.")))
      else if path.value !in disk.files then Stop(Escaped(IsADirectory(path.value)))
      else match codec.decodeGraph(disk.files[path.value])
        case GraphBad(reason) => Stop(Escaped(reason))
        case GraphOk(g) =>
          if rows == [] then Stop(Shown(Notice("Could not load conversation history.")))
          else
            var mentioned := Mentioned(NodeMap(g.nodes).Keys, AllText(rows));
            if mentioned == {} then
              Stop(Shown(Notice("No specific code entities found in this conversation to visualize.")))
            else Ready(g, mentioned)
  }

  /** The diagram drawn for a graph when its subgraph nodes are visited in the order `ids`. */
  function Diagram(g: Graph, mentioned: set<string>, showNeighbors: bool, ids: seq<string>): string {
    Markdown(DiagramLines(ids, KeptEdges(g.edges, mentioned, showNeighbors), NodeMap(g.nodes)))
  }

  /** `generate_visualization`; `ids` is the order in which the subgraph's node
      set was iterated. */
  method GenerateVisualization(conversationId: string, repoPath: string, showNeighbors: bool,
                               rows: seq<Row>, disk: Disk, codec: Codec)
    returns (out: Visual, ids: seq<string>)
    ensures Prepare(conversationId, repoPath, rows, disk, codec).Stop? ==>
      out == Prepare(conversationId, repoPath, rows, disk, codec).result
    ensures Prepare(conversationId, repoPath, rows, disk, codec).Ready? ==>
      var p := Prepare(conversationId, repoPath, rows, disk, codec);
      Enumerates(ids, SubgraphNodes(p.graph.edges, p.mentioned, showNeighbors))
      && out == Shown(Diagram(p.graph, p.mentioned, showNeighbors, ids))
  {
    ids := [];
    var p := Prepare(conversationId, repoPath, rows, disk, codec);
    if p.Stop? {
      return p.result, ids;
    }
    var nodeMap := NodeMap(p.graph.nodes);
    var nodes, kept := ExtractSubgraph(p.graph.edges, p.mentioned, showNeighbors);
    ids := Enumerate(nodes);
    var order, groups := GroupNodes(ids, nodeMap);
    var lines := RenderLines(ids, order, groups, kept, nodeMap);
    out := Shown(Markdown(lines));
  }

  /** When the function draws, the conversation and the repository are set,
      the conversation has rows, and the drawn mentions are graph nodes that
      occur in the conversation text; each guard's notice is the one the
      source shows. */
  lemma PrepareGuards(conversationId: string, repoPath: string, rows: seq<Row>, disk: Disk, codec: Codec)
    ensures conversationId == "" ==> Prepare(conversationId, repoPath, rows, disk, codec) == Stop(Shown(Notice("No conversation selected.")))
    ensures conversationId != "" && repoPath == "" ==> Prepare(conversationId, repoPath, rows, disk, codec) == Stop(Shown(Notice("No repository selected.")))
    ensures Prepare(conversationId, repoPath, rows, disk, codec).Ready? ==>
      var p := Prepare(conversationId, repoPath, rows, disk, codec);
      conversationId != "" && repoPath != "" && rows != [] && p.mentioned != {}
      && (forall id :: id in p.mentioned ==> (exists n :: n in p.graph.nodes && n.id == id) && Contains(AllText(rows), id))
    ensures Prepare(conversationId, repoPath, rows, disk, codec).Stop? && Prepare(conversationId, repoPath, rows, disk, codec).result.Escaped? ==>
      conversationId != "" && repoPath != ""
  {
  }

  /** Each node of the subgraph gets its line inside the diagram, between the
      fixed header and the trailing edge lines, one per kept edge in graph
      order; each named group opens a subgraph. */
  lemma DiagramShape(ids: seq<string>, kept: seq<Edge>, nodeMap: map<string, Node>)
    ensures DiagramLines(ids, kept, nodeMap)[..|HeaderLines|] == HeaderLines
    ensures var lines := DiagramLines(ids, kept, nodeMap);
      lines[|lines| - |kept|..] == EdgeLines(kept)
    ensures forall id :: id in ids ==> NodeLine(id, nodeMap) in DiagramLines(ids, kept, nodeMap)
    ensures forall g :: g in GroupOrder(ids, nodeMap) && Named(g) ==> OpenLine(g) in DiagramLines(ids, kept, nodeMap)
  {
    var order := GroupOrder(ids, nodeMap);
    var body := Blocks(order, ids, nodeMap);
    var lines := DiagramLines(ids, kept, nodeMap);
    assert lines == HeaderLines + body + EdgeLines(kept);
    GroupingPartition(ids, nodeMap);
    forall id | id in ids
      ensures NodeLine(id, nodeMap) in lines
    {
      var g := GroupOf(id, nodeMap);
      var members := Members(ids, g, nodeMap);
      var i :| 0 <= i < |members| && members[i] == id;
      assert NodeLines(members, nodeMap)[i] == NodeLine(id, nodeMap);
      var k :| 0 <= k < |order| && order[k] == g;
      BlockInBlocks(order, ids, nodeMap, k, NodeLine(id, nodeMap));
    }
    forall g | g in order && Named(g)
      ensures OpenLine(g) in lines
    {
      var k :| 0 <= k < |order| && order[k] == g;
      BlockInBlocks(order, ids, nodeMap, k, OpenLine(g));
    }
  }

  /** A line of group k's block is a line of the diagram body. */
  lemma BlockInBlocks(order: seq<string>, ids: seq<string>, nodeMap: map<string, Node>, k: nat, line: string)
    requires k < |order| && line in Block(order[k], Members(ids, order[k], nodeMap), nodeMap)
    ensures line in Blocks(order, ids, nodeMap)
  {
    BlockEndsPrefix(order, ids, nodeMap, k, line);
    BlocksPrefix(order, ids, nodeMap, k + 1);
    InPrefix(line, Blocks(order[..k + 1], ids, nodeMap), Blocks(order, ids, nodeMap));
  }

  /** Group k's block ends the blocks of the first k + 1 groups. */
  lemma BlockEndsPrefix(order: seq<string>, ids: seq<string>, nodeMap: map<string, Node>, k: nat, line: string)
    requires k < |order| && line in Block(order[k], Members(ids, order[k], nodeMap), nodeMap)
    ensures line in Blocks(order[..k + 1], ids, nodeMap)
  {
    var upto := order[..k + 1];
    BlocksLast(upto, ids, nodeMap);
    assert upto[..k] == order[..k];
    InAppend(line, Blocks(order[..k], ids, nodeMap), Block(order[k], Members(ids, order[k], nodeMap), nodeMap));
  }

  /** The blocks of the first j groups begin the blocks of all groups. */
  lemma {:induction false} BlocksPrefix(order: seq<string>, ids: seq<string>, nodeMap: map<string, Node>, j: nat)
    requires j <= |order|
    ensures Blocks(order[..j], ids, nodeMap) <= Blocks(order, ids, nodeMap)
    decreases |order|
  {
    if j == |order| {
      assert order[..j] == order;
    } else {
      var init := order[..|order| - 1];
      BlocksLast(order, ids, nodeMap);
      BlocksPrefix(init, ids, nodeMap, j);
      assert init[..j] == order[..j];
      PrefixAppend(Blocks(init, ids, nodeMap), Block(order[|order| - 1], Members(ids, order[|order| - 1], nodeMap), nodeMap));
      PrefixTrans(Blocks(order[..j], ids, nodeMap), Blocks(init, ids, nodeMap), Blocks(order, ids, nodeMap));
    }
  }

}
