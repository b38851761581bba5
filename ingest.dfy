/**
  Ingestion (core/ingest.py): the syntax-tree analyzer that turns one Python
  file into nodes and edges, the graph builder that runs it over a
  repository and saves the graph, the file filter and MIME fallback of the
  upload pipeline, and the viewer's guards.

  `ast.parse` is a parameter (`parse`); the file system and JSON are the
  `Disk` and `Codec` of the Tools module.
 */
module Ingest {
  import opened Wrappers
  import opened Seqs
  import opened Text
  import opened FileTree
  import opened KnowledgeGraph
  import opened PythonAst
  import opened Tools

  // ---------------------------------------------------------------------
  // What the analyzer extracts from one tree

  /** The nodes the analyzer appends for `t`, in visiting order: one per
      function or class definition; an `async def` adds none. */
  function TreeNodes(file: string, t: Tree): seq<Node>
    decreases t
  {
    match t
    case FunctionDef(name, cs) => [Node(name, Function, file)] + ForestNodes(file, cs)
    case ClassDef(name, cs) => [Node(name, Class, file)] + ForestNodes(file, cs)
    case AsyncFunctionDef(_, cs) => ForestNodes(file, cs)
    case Import(_) => []
    case ImportFrom(_) => []
    case Call(func, args) => TreeNodes(file, func) + ForestNodes(file, args)
    case Name(_) => []
    case Other(cs) => ForestNodes(file, cs)
  }

  function ForestNodes(file: string, ts: seq<Tree>): seq<Node>
    decreases ts
  {
    if ts == [] then [] else ForestNodes(file, ts[..|ts| - 1]) + TreeNodes(file, ts[|ts| - 1])
  }

  /** One `imports` edge from the file per imported name. */
  function ImportEdges(file: string, names: seq<string>): (r: seq<Edge>)
    ensures |r| == |names|
    ensures forall i :: 0 <= i < |names| ==> r[i] == Edge(file, names[i], Imports)
  {
    seq(|names|, i requires 0 <= i < |names| => Edge(file, names[i], Imports))
  }

  /** The edges the analyzer appends for `t` when `scope` is the innermost
      enclosing definition (the file name at module level). A definition's
      children are visited in its own scope; an `async def` keeps the
      enclosing one. Only a call of a bare name makes a `calls` edge. */
  function TreeEdges(file: string, scope: string, t: Tree): seq<Edge>
    decreases t
  {
    match t
    case FunctionDef(name, cs) => ForestEdges(file, name, cs)
    case ClassDef(name, cs) => ForestEdges(file, name, cs)
    case AsyncFunctionDef(_, cs) => ForestEdges(file, scope, cs)
    case Import(names) => ImportEdges(file, names)
    case ImportFrom(m) => if m.Some? && m.value != "" then [Edge(file, m.value, Imports)] else []
    case Call(func, args) =>
      (if func.Name? then [Edge(scope, func.id, Calls)] else [])
      + TreeEdges(file, scope, func) + ForestEdges(file, scope, args)
    case Name(_) => []
    case Other(cs) => ForestEdges(file, scope, cs)
  }

  function ForestEdges(file: string, scope: string, ts: seq<Tree>): seq<Edge>
    decreases ts
  {
    if ts == [] then [] else ForestEdges(file, scope, ts[..|ts| - 1]) + TreeEdges(file, scope, ts[|ts| - 1])
  }

  function NodeIds(ns: seq<Node>): set<string> {
    set n | n in ns :: n.id
  }

  /** Every name in the tree is a Python identifier or dotted module name, so none holds '-'. */
  predicate PlainNames(t: Tree)
    decreases t
  {
    match t
    case FunctionDef(name, cs) => '-' !in name && forall c :: c in cs ==> PlainNames(c)
    case ClassDef(name, cs) => '-' !in name && forall c :: c in cs ==> PlainNames(c)
    case AsyncFunctionDef(name, cs) => '-' !in name && forall c :: c in cs ==> PlainNames(c)
    case Import(names) => forall n :: n in names ==> '-' !in n
    case ImportFrom(m) => m.Some? ==> '-' !in m.value
    case Call(func, args) => PlainNames(func) && forall a :: a in args ==> PlainNames(a)
    case Name(id) => '-' !in id
    case Other(cs) => forall c :: c in cs ==> PlainNames(c)
  }

  /** What the analyzer guarantees of a tree's output: its nodes are the file's
      functions and classes; an `imports` edge starts at the file; a `calls`
      edge starts at the enclosing scope or at a definition inside the tree;
      and targets of a tree with plain names are plain. */
  lemma {:induction false} TreeOutput(file: string, scope: string, t: Tree)
    ensures forall n :: n in TreeNodes(file, t) ==> n.file == file && n.kind != File
    ensures forall e :: e in TreeEdges(file, scope, t) ==>
      (e.kind == Imports ==> e.source == file)
      && (e.kind == Calls ==> e.source == scope || e.source in NodeIds(TreeNodes(file, t)))
    ensures PlainNames(t) ==> PlainTargets(TreeEdges(file, scope, t))
    decreases t
  {
    match t
    case FunctionDef(name, cs) =>
      ForestOutput(file, name, cs);
    case ClassDef(name, cs) =>
      ForestOutput(file, name, cs);
    case AsyncFunctionDef(_, cs) =>
      ForestOutput(file, scope, cs);
    case Import(names) =>
    case ImportFrom(m) =>
    case Call(func, args) =>
      TreeOutput(file, scope, func);
      ForestOutput(file, scope, args);
      if PlainNames(t) {
        assert PlainNames(func);
        assert func.Name? ==> '-' !in func.id;
      }
    case Name(_) =>
    case Other(cs) =>
      ForestOutput(file, scope, cs);
  }

  lemma {:induction false} ForestOutput(file: string, scope: string, ts: seq<Tree>)
    ensures forall n :: n in ForestNodes(file, ts) ==> n.file == file && n.kind != File
    ensures forall e :: e in ForestEdges(file, scope, ts) ==>
      (e.kind == Imports ==> e.source == file)
      && (e.kind == Calls ==> e.source == scope || e.source in NodeIds(ForestNodes(file, ts)))
    ensures (forall t :: t in ts ==> PlainNames(t)) ==> PlainTargets(ForestEdges(file, scope, ts))
    decreases ts
  {
    if ts != [] {
      var prefix := ts[..|ts| - 1];
      var last := ts[|ts| - 1];
      ForestOutput(file, scope, prefix);
      TreeOutput(file, scope, last);
      assert NodeIds(ForestNodes(file, ts)) == NodeIds(ForestNodes(file, prefix)) + NodeIds(TreeNodes(file, last));
      if forall t :: t in ts ==> PlainNames(t) {
        assert forall t :: t in prefix ==> t in ts;
      }
    }
  }

  /** `CodeAnalyzer(ast.NodeVisitor)`: walks one file's tree, appending nodes
      and edges and tracking the innermost enclosing definition. */
  class CodeAnalyzer {
    const fileName: string
    var nodes: seq<Node>
    var edges: seq<Edge>
    var currentScope: string

    constructor(fileName: string)
      ensures this.fileName == fileName
      ensures nodes == [] && edges == [] && currentScope == fileName
    {
      this.fileName := fileName;
      nodes := [];
      edges := [];
      currentScope := fileName;
    }

    /** `visit`: dispatch on the kind of tree node; kinds without a visitor of
        their own are visited generically. */
    method Visit(t: Tree)
      modifies this
      ensures nodes == old(nodes) + TreeNodes(fileName, t)
      ensures edges == old(edges) + TreeEdges(fileName, old(currentScope), t)
      ensures currentScope == old(currentScope)
      decreases t, 1
    {
      match t
      case FunctionDef(_, _) => VisitDefinition(t);
      case ClassDef(_, _) => VisitDefinition(t);
      case AsyncFunctionDef(_, cs) => GenericVisit(cs);
      case Import(_) => VisitImport(t);
      case ImportFrom(_) => VisitImportFrom(t);
      case Call(_, _) => VisitCall(t);
      case Name(_) =>
      case Other(cs) => GenericVisit(cs);
    }

    /** `visit_FunctionDef` and `visit_ClassDef`: record the definition, visit
        its children in its own scope, restore the enclosing scope. */
    method VisitDefinition(t: Tree)
      requires t.FunctionDef? || t.ClassDef?
      modifies this
      ensures nodes == old(nodes) + [Node(t.name, if t.FunctionDef? then Function else Class, fileName)]
                       + ForestNodes(fileName, t.children)
      ensures edges == old(edges) + ForestEdges(fileName, t.name, t.children)
      ensures currentScope == old(currentScope)
      decreases t, 0
    {
      nodes := nodes + [Node(t.name, if t.FunctionDef? then Function else Class, fileName)];
      var parentScope := currentScope;
      currentScope := t.name;
      GenericVisit(t.children);
      currentScope := parentScope;
    }

    /** `visit_Import`: one `imports` edge from the file per alias. */
    method VisitImport(t: Tree)
      requires t.Import?
      modifies this
      ensures nodes == old(nodes) && currentScope == old(currentScope)
      ensures edges == old(edges) + ImportEdges(fileName, t.names)
    {
      for i := 0 to |t.names|
        invariant edges == old(edges) + ImportEdges(fileName, t.names[..i])
        invariant nodes == old(nodes) && currentScope == old(currentScope)
      {
        edges := edges + [Edge(fileName, t.names[i], Imports)];
      }
      assert t.names[..|t.names|] == t.names;
    }

    /** `visit_ImportFrom`: an `imports` edge to the module, when there is one. */
    method VisitImportFrom(t: Tree)
      requires t.ImportFrom?
      modifies this
      ensures nodes == old(nodes) && currentScope == old(currentScope)
      ensures edges == old(edges) + TreeEdges(fileName, currentScope, t)
    {
      if t.moduleName.Some? && t.moduleName.value != "" {
        edges := edges + [Edge(fileName, t.moduleName.value, Imports)];
      }
    }

    /** `visit_Call`: a `calls` edge from the current scope when the callee is a
        bare name, then the callee and the arguments. */
    method VisitCall(t: Tree)
      requires t.Call?
      modifies this
      ensures nodes == old(nodes) + TreeNodes(fileName, t)
      ensures edges == old(edges) + TreeEdges(fileName, old(currentScope), t)
      ensures currentScope == old(currentScope)
      decreases t, 0
    {
      ghost var nodes0, edges0, scope := nodes, edges, currentScope;
      var own: seq<Edge> := [];
      if t.func.Name? {
        own := [Edge(currentScope, t.func.id, Calls)];
      }
      edges := edges + own;
      Visit(t.func);
      GenericVisit(t.args);
      CallUnfolds(fileName, scope, t);
      AppendAssoc(nodes0, TreeNodes(fileName, t.func), ForestNodes(fileName, t.args));
      AppendAssoc(edges0, own, TreeEdges(fileName, scope, t.func));
      AppendAssoc(edges0, own + TreeEdges(fileName, scope, t.func), ForestEdges(fileName, scope, t.args));
    }

    /** `generic_visit`: the children in order. */
    method GenericVisit(ts: seq<Tree>)
      modifies this
      ensures nodes == old(nodes) + ForestNodes(fileName, ts)
      ensures edges == old(edges) + ForestEdges(fileName, old(currentScope), ts)
      ensures currentScope == old(currentScope)
      decreases ts, 0
    {
      for i := 0 to |ts|
        invariant nodes == old(nodes) + ForestNodes(fileName, ts[..i])
        invariant edges == old(edges) + ForestEdges(fileName, old(currentScope), ts[..i])
        invariant currentScope == old(currentScope)
      {
        assert ts[..i + 1][..i] == ts[..i];
        Visit(ts[i]);
      }
      assert ts[..|ts|] == ts;
    }
  }

  lemma CallUnfolds(file: string, scope: string, t: Tree)
    requires t.Call?
    ensures TreeNodes(file, t) == TreeNodes(file, t.func) + ForestNodes(file, t.args)
    ensures TreeEdges(file, scope, t) == (if t.func.Name? then [Edge(scope, t.func.id, Calls)] else [])
                                         + TreeEdges(file, scope, t.func) + ForestEdges(file, scope, t.args)
  {
  }

  // ---------------------------------------------------------------------
  // The graph builder

  datatype ParseResult = Parsed(tree: Tree) | SyntaxError(message: string)

  /** The graph under construction and `existing_node_ids`. */
  datatype Acc = Acc(nodes: seq<Node>, edges: seq<Edge>, seen: set<string>)

  const Empty := Acc([], [], {})

  /** A node is added unless its id is already taken: the first node with an id wins. */
  function AddNode(acc: Acc, n: Node): Acc {
    if n.id in acc.seen then acc else Acc(acc.nodes + [n], acc.edges, acc.seen + {n.id})
  }

  function AddNodes(acc: Acc, ns: seq<Node>): Acc
    decreases |ns|
  {
    if ns == [] then acc else AddNode(AddNodes(acc, ns[..|ns| - 1]), ns[|ns| - 1])
  }

  function FileNode(name: string): Node {
    Node(name, File, name)
  }

  /** One file's contribution: nothing for a blank file; its file node; then,
      when it parses, the analyzer's nodes (deduplicated) and edges. */
  function AnalyzeFile(acc: Acc, f: FileEntry, parse: string -> ParseResult): Acc {
    if Strip(f.content) == "" then acc
    else
      var withFile := AddNode(acc, FileNode(f.name));
      match parse(f.content)
      case SyntaxError(_) => withFile
      case Parsed(t) =>
        var merged := AddNodes(withFile, TreeNodes(f.name, t));
        Acc(merged.nodes, merged.edges + TreeEdges(f.name, f.name, t), merged.seen)
  }

  function AnalyzeFiles(files: seq<FileEntry>, parse: string -> ParseResult): Acc
    decreases |files|
  {
    if files == [] then Empty else AnalyzeFile(AnalyzeFiles(files[..|files| - 1], parse), files[|files| - 1], parse)
  }

  /** The graph that is saved: the merged nodes and the deduplicated edges. */
  function BuiltGraph(files: seq<FileEntry>, parse: string -> ParseResult): Graph {
    var acc := AnalyzeFiles(files, parse);
    Graph(acc.nodes, DedupEdges(acc.edges))
  }

  /** The nodes offered for one file, in the order they are offered. */
  function FileCandidates(f: FileEntry, parse: string -> ParseResult): seq<Node> {
    if Strip(f.content) == "" then []
    else
      [FileNode(f.name)] + match parse(f.content)
        case SyntaxError(_) => []
        case Parsed(t) => TreeNodes(f.name, t)
  }

  function Candidates(files: seq<FileEntry>, parse: string -> ParseResult): seq<Node>
    decreases |files|
  {
    if files == [] then [] else Candidates(files[..|files| - 1], parse) + FileCandidates(files[|files| - 1], parse)
  }

  lemma {:induction false} AddNodesAppend(acc: Acc, a: seq<Node>, b: seq<Node>)
    ensures AddNodes(acc, a + b) == AddNodes(AddNodes(acc, a), b)
    decreases |b|
  {
    if b == [] {
      assert a + b == a;
    } else {
      assert (a + b)[..|a + b| - 1] == a + b[..|b| - 1];
      AddNodesAppend(acc, a, b[..|b| - 1]);
    }
  }

  lemma {:induction false} AddNodesKeepsEdges(acc: Acc, ns: seq<Node>)
    ensures AddNodes(acc, ns).edges == acc.edges
    decreases |ns|
  {
    if ns != [] { AddNodesKeepsEdges(acc, ns[..|ns| - 1]); }
  }

  /** Node merging across files is one pass over all offered nodes in order. */
  lemma {:induction false} AnalyzeFilesNodes(files: seq<FileEntry>, parse: string -> ParseResult)
    ensures AnalyzeFiles(files, parse).nodes == AddNodes(Empty, Candidates(files, parse)).nodes
    ensures AnalyzeFiles(files, parse).seen == AddNodes(Empty, Candidates(files, parse)).seen
    decreases |files|
  {
    if files != [] {
      var prefix := files[..|files| - 1];
      var f := files[|files| - 1];
      AnalyzeFilesNodes(prefix, parse);
      var prev := AnalyzeFiles(prefix, parse);
      var cands := Candidates(prefix, parse);
      AddNodesAppend(Empty, cands, FileCandidates(f, parse));
      var before := AddNodes(Empty, cands);
      assert before.nodes == prev.nodes && before.seen == prev.seen;
      if Strip(f.content) != "" {
        var rest := match parse(f.content)
          case SyntaxError(_) => []
          case Parsed(t) => TreeNodes(f.name, t);
        AddNodesAppend(before, [FileNode(f.name)], rest);
        AddNodesAppend(prev, [FileNode(f.name)], rest);
        assert AddNodes(before, [FileNode(f.name)]) == AddNode(before, FileNode(f.name));
        assert AddNodes(prev, [FileNode(f.name)]) == AddNode(prev, FileNode(f.name));
        AddNodesSameSeen(AddNode(before, FileNode(f.name)), AddNode(prev, FileNode(f.name)), rest);
      }
    }
  }

  /** Merging depends on the accumulated nodes and ids, not on the edges. */
  lemma {:induction false} AddNodesSameSeen(a: Acc, b: Acc, ns: seq<Node>)
    requires a.nodes == b.nodes && a.seen == b.seen
    ensures AddNodes(a, ns).nodes == AddNodes(b, ns).nodes
    ensures AddNodes(a, ns).seen == AddNodes(b, ns).seen
    decreases |ns|
  {
    if ns != [] { AddNodesSameSeen(a, b, ns[..|ns| - 1]); }
  }

  /** The ids taken after merging are those of the merged nodes, which are
      those of all offered nodes. */
  lemma {:induction false} AddNodesIds(ns: seq<Node>)
    ensures AddNodes(Empty, ns).seen == NodeIds(AddNodes(Empty, ns).nodes) == NodeIds(ns)
    decreases |ns|
  {
    if ns != [] {
      var prefix := ns[..|ns| - 1];
      var last := ns[|ns| - 1];
      AddNodesIds(prefix);
      assert ns == prefix + [last];
      assert NodeIds(ns) == NodeIds(prefix) + {last.id};
      var prev := AddNodes(Empty, prefix);
      assert NodeIds(prev.nodes + [last]) == NodeIds(prev.nodes) + {last.id};
    }
  }

  predicate UniqueIds(r: seq<Node>) {
    forall i, j :: 0 <= i < j < |r| ==> r[i].id != r[j].id
  }

  /** No two merged nodes share an id. */
  lemma {:induction false} AddNodesUnique(ns: seq<Node>)
    ensures UniqueIds(AddNodes(Empty, ns).nodes)
    decreases |ns|
  {
    if ns != [] {
      var prefix := ns[..|ns| - 1];
      var last := ns[|ns| - 1];
      AddNodesUnique(prefix);
      AddNodesIds(prefix);
      var prev := AddNodes(Empty, prefix);
      if last.id !in prev.seen {
        forall i | 0 <= i < |prev.nodes|
          ensures prev.nodes[i].id != last.id
        {
          assert prev.nodes[i] in prev.nodes;
        }
      }
    }
  }

  /** `r[k]` is the first node of `ns` with its id. */
  predicate FirstWithId(ns: seq<Node>, n: Node) {
    exists j :: 0 <= j < |ns| && ns[j] == n && forall j' :: 0 <= j' < j ==> ns[j'].id != n.id
  }

  /** First write wins: each merged node is the first one offered with its id. */
  lemma {:induction false} AddNodesFirst(ns: seq<Node>)
    ensures forall n :: n in AddNodes(Empty, ns).nodes ==> FirstWithId(ns, n)
    decreases |ns|
  {
    if ns != [] {
      var prefix := ns[..|ns| - 1];
      var last := ns[|ns| - 1];
      AddNodesFirst(prefix);
      AddNodesIds(prefix);
      var prev := AddNodes(Empty, prefix);
      assert ns == prefix + [last];
      forall n | n in AddNodes(Empty, ns).nodes
        ensures FirstWithId(ns, n)
      {
        if n in prev.nodes {
          FirstWithIdExtend(prefix, last, n);
        } else {
          FirstWithIdLast(prefix, last);
        }
      }
    }
  }

  lemma FirstWithIdExtend(prefix: seq<Node>, last: Node, n: Node)
    requires FirstWithId(prefix, n)
    ensures FirstWithId(prefix + [last], n)
  {
    var j :| 0 <= j < |prefix| && prefix[j] == n && forall j' :: 0 <= j' < j ==> prefix[j'].id != n.id;
    assert (prefix + [last])[j] == n;
    assert forall j' :: 0 <= j' < j ==> (prefix + [last])[j'] == prefix[j'];
  }

  lemma FirstWithIdLast(prefix: seq<Node>, last: Node)
    requires last.id !in NodeIds(prefix)
    ensures FirstWithId(prefix + [last], last)
  {
    var ns := prefix + [last];
    forall j' | 0 <= j' < |prefix|
      ensures ns[j'].id != last.id
    {
      assert prefix[j'] in prefix;
    }
    assert ns[|prefix|] == last;
  }

  /** The saved graph: node ids are unique and cover every offered node, each
      kept node is the first offered with its id, and when every name is
      plain the edges are each distinct analyzer edge once. */
  lemma BuiltGraphProperties(files: seq<FileEntry>, parse: string -> ParseResult)
    ensures var g := BuiltGraph(files, parse);
      UniqueIds(g.nodes)
      && NodeIds(g.nodes) == NodeIds(Candidates(files, parse))
      && forall n :: n in g.nodes ==> FirstWithId(Candidates(files, parse), n)
    ensures (forall f, t :: f in files && parse(f.content) == Parsed(t) ==> PlainNames(t)) ==>
      DedupEdges(AnalyzeFiles(files, parse).edges) == Distinct(AnalyzeFiles(files, parse).edges)
  {
    AnalyzeFilesNodes(files, parse);
    AddNodesIds(Candidates(files, parse));
    AddNodesUnique(Candidates(files, parse));
    AddNodesFirst(Candidates(files, parse));
    if forall f, t :: f in files && parse(f.content) == Parsed(t) ==> PlainNames(t) {
      AnalyzedEdgesPlain(files, parse);
      DedupIsDistinct(AnalyzeFiles(files, parse).edges);
    }
  }

  lemma {:induction false} AnalyzedEdgesPlain(files: seq<FileEntry>, parse: string -> ParseResult)
    requires forall f, t :: f in files && parse(f.content) == Parsed(t) ==> PlainNames(t)
    ensures PlainTargets(AnalyzeFiles(files, parse).edges)
    decreases |files|
  {
    if files != [] {
      var prefix := files[..|files| - 1];
      var f := files[|files| - 1];
      assert forall g :: g in prefix ==> g in files;
      AnalyzedEdgesPlain(prefix, parse);
      var prev := AnalyzeFiles(prefix, parse);
      if Strip(f.content) != "" {
        var withFile := AddNode(prev, FileNode(f.name));
        match parse(f.content)
        case SyntaxError(_) =>
        case Parsed(t) =>
          TreeOutput(f.name, f.name, t);
          AddNodesKeepsEdges(withFile, TreeNodes(f.name, t));
      }
    }
  }

  /** The walk filter of the builder: Python files that are not hidden and not ignored. */
  function GraphKeepsFile(ignoredFiles: set<string>): string -> bool {
    f => !StartsWith(f, ".") && f !in ignoredFiles && EndsWith(f, ".py")
  }

  function KeepsDir(ignoredDirs: set<string>): string -> bool {
    d => d !in ignoredDirs
  }

  function Entries(found: seq<Found>): (r: seq<FileEntry>)
    ensures |r| == |found|
    ensures forall i :: 0 <= i < |found| ==> r[i] == found[i].entry
  {
    seq(|found|, i requires 0 <= i < |found| => found[i].entry)
  }

  /** The messages logged for one file. */
  function FileMessages(f: FileEntry, parse: string -> ParseResult): seq<string> {
    [AnalyzingMessage(f.name)] + ContentMessages(f, parse)
  }

  function AnalyzingMessage(name: string): string {
    "Analyzing `" + name + "`..."
  }

  /** The messages logged for a file after it is announced. */
  function ContentMessages(f: FileEntry, parse: string -> ParseResult): seq<string> {
    if Strip(f.content) == "" then ["Skipping empty file: `" + f.name + "`"]
    else match parse(f.content)
      case SyntaxError(msg) => ["❌ Error analyzing `" + f.name + "`: " + msg]
      case Parsed(_) => []
  }

  function AllFileMessages(files: seq<FileEntry>, parse: string -> ParseResult): seq<string>
    decreases |files|
  {
    if files == [] then [] else AllFileMessages(files[..|files| - 1], parse) + FileMessages(files[|files| - 1], parse)
  }

  /** Each progress update is the newline-joined log so far: the last one
      joins every message, and the ones before it are cumulative for the
      messages before the last. */
  ghost predicate Cumulative(messages: seq<string>, yielded: seq<string>)
    decreases |yielded|
  {
    |yielded| == |messages|
    && (yielded != [] ==>
          yielded[|yielded| - 1] == Join(messages, "\n")
          && Cumulative(messages[..|messages| - 1], yielded[..|yielded| - 1]))
  }

  /** Update `i` is the log of the first `i + 1` messages. */
  lemma {:induction false} CumulativeAt(messages: seq<string>, yielded: seq<string>, i: nat)
    requires Cumulative(messages, yielded)
    requires i < |yielded|
    ensures yielded[i] == Join(messages[..i + 1], "\n")
    decreases |yielded|
  {
    if i < |yielded| - 1 {
      CumulativeAt(messages[..|messages| - 1], yielded[..|yielded| - 1], i);
      assert messages[..|messages| - 1][..i + 1] == messages[..i + 1];
    } else {
      assert messages[..i + 1] == messages;
    }
  }

  /** Every progress update extends the one before it. */
  lemma {:induction false} CumulativeGrows(messages: seq<string>, yielded: seq<string>, i: nat, j: nat)
    requires Cumulative(messages, yielded)
    requires i <= j < |yielded|
    ensures StartsWith(yielded[j], yielded[i])
    decreases j - i
  {
    if i < j {
      CumulativeGrows(messages, yielded, i, j - 1);
      CumulativeAt(messages, yielded, j - 1);
      CumulativeAt(messages, yielded, j);
      assert messages[..j + 1] == messages[..j] + [messages[j]];
      JoinExtends(messages[..j], messages[j], "\n");
    }
  }

  /** The builder's `log` closure: the messages so far and the updates yielded. */
  class ProgressLog {
    var messages: seq<string>
    var yielded: seq<string>

    constructor()
      ensures messages == [] && yielded == []
    {
      messages := [];
      yielded := [];
    }

    method Log(m: string)
      modifies this
      ensures messages == old(messages) + [m]
      ensures yielded == old(yielded) + [Join(messages, "\n")]
      ensures Cumulative(old(messages), old(yielded)) ==> Cumulative(messages, yielded)
    {
      messages := messages + [m];
      yielded := yielded + [Join(messages, "\n")];
      assert messages[..|messages| - 1] == old(messages);
      assert yielded[..|yielded| - 1] == old(yielded);
    }
  }

  const InvalidDirectory := "❌ Error: Please provide a valid directory path to build the graph."
  const NoPythonFiles := "No Python (.py) files found to build graph."

  /** The marks that open the success and error messages. */
  const SuccessMark := "✅"
  const ErrorMark := "❌"

  function SavedMessage(path: string): string {
    SuccessMark + " Knowledge graph built successfully and saved to `" + path + "`."
  }

  function SaveFailedMessage(reason: string): string {
    ErrorMark + " Error saving knowledge graph: " + reason
  }

  /** How saving the graph can fail. `open(path, 'w')` either raises before
      anything happens to the file, or truncates it, after which `json.dump`
      can raise having written only `written`. */
  datatype SaveError = OpenFailed(reason: string) | DumpFailed(reason: string, written: string)

  /** The body of the builder's loop for one file: log it, skip it when blank,
      add its file node, and merge what the analyzer finds when it parses. */
  method AnalyzeEntry(log: ProgressLog, f: FileEntry, parse: string -> ParseResult,
                      nodes: seq<Node>, edges: seq<Edge>, existing: set<string>)
    returns (nodes': seq<Node>, edges': seq<Edge>, existing': set<string>)
    modifies log
    ensures Acc(nodes', edges', existing') == AnalyzeFile(Acc(nodes, edges, existing), f, parse)
    ensures log.messages == old(log.messages) + FileMessages(f, parse)
    ensures Cumulative(old(log.messages), old(log.yielded)) ==> Cumulative(log.messages, log.yielded)
  {
    log.Log(AnalyzingMessage(f.name));
    nodes', edges', existing' := AnalyzeContent(log, f, parse, nodes, edges, existing);
    AppendAssoc(old(log.messages), [AnalyzingMessage(f.name)], ContentMessages(f, parse));
  }

  /** The rest of the loop body, once the file is announced. */
  method AnalyzeContent(log: ProgressLog, f: FileEntry, parse: string -> ParseResult,
                        nodes: seq<Node>, edges: seq<Edge>, existing: set<string>)
    returns (nodes': seq<Node>, edges': seq<Edge>, existing': set<string>)
    modifies log
    ensures Acc(nodes', edges', existing') == AnalyzeFile(Acc(nodes, edges, existing), f, parse)
    ensures log.messages == old(log.messages) + ContentMessages(f, parse)
    ensures Cumulative(old(log.messages), old(log.yielded)) ==> Cumulative(log.messages, log.yielded)
  {
    nodes', edges', existing' := nodes, edges, existing;
    if Strip(f.content) == "" {
      log.Log("Skipping empty file: `" + f.name + "`");
      return;
    }
    if f.name !in existing' {
      nodes' := nodes' + [FileNode(f.name)];
      existing' := existing' + {f.name};
    }
    assert Acc(nodes', edges', existing') == AddNode(Acc(nodes, edges, existing), FileNode(f.name));
    match parse(f.content)
    case SyntaxError(msg) =>
      log.Log("❌ Error analyzing `" + f.name + "`: " + msg);
    case Parsed(t) =>
      var analyzer := new CodeAnalyzer(f.name);
      analyzer.Visit(t);
      assert analyzer.nodes == TreeNodes(f.name, t);
      assert analyzer.edges == TreeEdges(f.name, f.name, t);
      nodes', existing' := MergeNodes(nodes', edges', existing', analyzer.nodes);
      edges' := edges' + analyzer.edges;
      assert log.messages + [] == log.messages;
  }

  /** The loop that appends each analyzer node whose id is not taken yet. */
  method MergeNodes(nodes: seq<Node>, ghost edges: seq<Edge>, existing: set<string>, ns: seq<Node>)
    returns (nodes': seq<Node>, existing': set<string>)
    ensures Acc(nodes', edges, existing') == AddNodes(Acc(nodes, edges, existing), ns)
  {
    nodes', existing' := nodes, existing;
    for j := 0 to |ns|
      invariant Acc(nodes', edges, existing') == AddNodes(Acc(nodes, edges, existing), ns[..j])
    {
      assert ns[..j + 1][..j] == ns[..j];
      if ns[j].id !in existing' {
        nodes' := nodes' + [ns[j]];
        existing' := existing' + {ns[j].id};
      }
    }
    assert ns[..|ns|] == ns;
  }

  /** The builder's loop over the Python files found. */
  method AnalyzeAll(log: ProgressLog, found: seq<Found>, parse: string -> ParseResult)
    returns (nodes: seq<Node>, edges: seq<Edge>, existing: set<string>)
    modifies log
    ensures Acc(nodes, edges, existing) == AnalyzeFiles(Entries(found), parse)
    ensures log.messages == old(log.messages) + AllFileMessages(Entries(found), parse)
    ensures Cumulative(old(log.messages), old(log.yielded)) ==> Cumulative(log.messages, log.yielded)
  {
    var files := Entries(found);
    nodes, edges, existing := [], [], {};
    for i := 0 to |found|
      invariant Acc(nodes, edges, existing) == AnalyzeFiles(files[..i], parse)
      invariant log.messages == old(log.messages) + AllFileMessages(files[..i], parse)
      invariant Cumulative(old(log.messages), old(log.yielded)) ==> Cumulative(log.messages, log.yielded)
    {
      nodes, edges, existing := AnalyzeNext(log, old(log.messages), files, i, parse, nodes, edges, existing);
    }
    assert files[..|found|] == files;
  }

  /** One turn of the builder's loop, stated over the prefix of the files
      analyzed so far. */
  method AnalyzeNext(log: ProgressLog, ghost start: seq<string>, files: seq<FileEntry>, i: nat, parse: string -> ParseResult,
                     nodes: seq<Node>, edges: seq<Edge>, existing: set<string>)
    returns (nodes': seq<Node>, edges': seq<Edge>, existing': set<string>)
    requires i < |files|
    requires Acc(nodes, edges, existing) == AnalyzeFiles(files[..i], parse)
    requires log.messages == start + AllFileMessages(files[..i], parse)
    modifies log
    ensures Acc(nodes', edges', existing') == AnalyzeFiles(files[..i + 1], parse)
    ensures log.messages == start + AllFileMessages(files[..i + 1], parse)
    ensures Cumulative(old(log.messages), old(log.yielded)) ==> Cumulative(log.messages, log.yielded)
  {
    AnalyzeFilesStep(files, i, parse);
    nodes', edges', existing' := AnalyzeEntry(log, files[i], parse, nodes, edges, existing);
    AppendAssoc(start, AllFileMessages(files[..i], parse), FileMessages(files[i], parse));
  }

  /** One more file extends the graph and the log of the files before it. */
  lemma AnalyzeFilesStep(files: seq<FileEntry>, i: nat, parse: string -> ParseResult)
    requires i < |files|
    ensures AnalyzeFiles(files[..i + 1], parse) == AnalyzeFile(AnalyzeFiles(files[..i], parse), files[i], parse)
    ensures AllFileMessages(files[..i + 1], parse) == AllFileMessages(files[..i], parse) + FileMessages(files[i], parse)
  {
    assert files[..i + 1][..i] == files[..i];
  }

  /** The Python files the builder analyzes under `root`, in walk order. */
  function GraphSources(root: Dir, ignoredDirs: set<string>, ignoredFiles: set<string>): seq<Found> {
    Walk(root, KeepsDir(ignoredDirs), GraphKeepsFile(ignoredFiles))
  }

  /** What a build logs and the files it leaves: the specification of
      `build_knowledge_graph`. */
  function BuildOutcome(directoryPath: string, disk: Disk, ignoredDirs: set<string>, ignoredFiles: set<string>,
                        parse: string -> ParseResult, codec: Codec, saveError: Option<SaveError>): (seq<string>, map<string, string>)
  {
    if directoryPath == "" || directoryPath !in disk.dirs then ([InvalidDirectory], disk.files)
    else ScanOutcome(directoryPath, GraphSources(disk.dirs[directoryPath], ignoredDirs, ignoredFiles), parse,
                     GraphPath(codec.hash, disk.cwd, directoryPath).value, codec, saveError, disk.files)
  }

  /** A build of an existing directory whose Python files are `found`: the
      scan message, then what `FoundOutcome` logs. */
  function ScanOutcome(directoryPath: string, found: seq<Found>, parse: string -> ParseResult, path: string,
                       codec: Codec, saveError: Option<SaveError>, stored: map<string, string>): (seq<string>, map<string, string>)
  {
    var rest := FoundOutcome(found, parse, path, codec, saveError, stored);
    (["Scanning directory for graph construction: " + directoryPath] + rest.0, rest.1)
  }

  /** Once the Python files are known: the notice that there are none, or the
      file count followed by the analysis and the save to `path`. */
  function FoundOutcome(found: seq<Found>, parse: string -> ParseResult, path: string,
                        codec: Codec, saveError: Option<SaveError>, stored: map<string, string>): (seq<string>, map<string, string>)
  {
    if found == [] then ([NoPythonFiles], stored)
    else
      var rest := AnalysisOutcome(Entries(found), parse, path, codec, saveError, stored);
      (["Found " + NatToString(|found|) + " Python files. Building knowledge graph..."] + rest.0, rest.1)
  }

  /** The messages after the file count, and the files left, once the Python
      files are known: one log per file, then the save of the built graph to
      `path` or its error. */
  function AnalysisOutcome(files: seq<FileEntry>, parse: string -> ParseResult, path: string, codec: Codec,
                           saveError: Option<SaveError>, stored: map<string, string>): (seq<string>, map<string, string>)
  {
    SaveStep(AllFileMessages(files, parse), codec.encodeGraph(BuiltGraph(files, parse)), path, saveError, stored)
  }

  /** The log and the files after saving the graph encoded as `encoded` to
      `path`, following the messages `before`. */
  function SaveStep(before: seq<string>, encoded: string, path: string, saveError: Option<SaveError>,
                    stored: map<string, string>): (seq<string>, map<string, string>)
  {
    match saveError
    case None => (before + [SavedMessage(path)], stored[path := encoded])
    case Some(OpenFailed(reason)) => (before + [SaveFailedMessage(reason)], stored)
    case Some(DumpFailed(reason, written)) => (before + [SaveFailedMessage(reason)], stored[path := written])
  }

  /** Saving touches only the graph's own path and closes the log with one
      message, the success notice exactly when nothing failed: success stores
      the encoded graph, a failed open keeps what was there, and a failed dump
      leaves the truncated text in its place. */
  lemma SaveOutcome(before: seq<string>, encoded: string, path: string, saveError: Option<SaveError>,
                    stored: map<string, string>)
    ensures var out := SaveStep(before, encoded, path, saveError, stored);
      && |out.0| == |before| + 1
      && out.0[..|before|] == before
      && (out.0[|before|] == SavedMessage(path) <==> saveError.None?)
      && (forall p :: p != path ==> (p in out.1 <==> p in stored))
      && (forall p :: p != path && p in stored ==> out.1[p] == stored[p])
      && (saveError.None? ==> path in out.1 && out.1[path] == encoded)
      && (saveError.Some? && saveError.value.OpenFailed? ==> out.1 == stored)
      && (saveError.Some? && saveError.value.DumpFailed? ==> path in out.1 && out.1[path] == saveError.value.written)
  {
    var out := SaveStep(before, encoded, path, saveError, stored);
    assert out.0[..|before|] == before;
    if saveError.Some? {
      assert SavedMessage(path)[0] == SuccessMark[0] != ErrorMark[0] == SaveFailedMessage(saveError.value.reason)[0];
      assert out.0[|before|] == SaveFailedMessage(saveError.value.reason);
    }
  }

  /** `build_knowledge_graph`: walk the directory for Python files, analyze each
      one, merge and deduplicate, and save the graph under the repository's
      graph path; `saveError` is the error opening or writing that file raises, if any. */
  method BuildKnowledgeGraph(directoryPath: string, disk: Disk, ignoredDirs: set<string>, ignoredFiles: set<string>,
                             parse: string -> ParseResult, codec: Codec, saveError: Option<SaveError>)
    returns (messages: seq<string>, yielded: seq<string>, files: map<string, string>)
    ensures Cumulative(messages, yielded)
    ensures (messages, files) == BuildOutcome(directoryPath, disk, ignoredDirs, ignoredFiles, parse, codec, saveError)
  {
    var log := new ProgressLog();
    files := BuildInto(log, directoryPath, disk, ignoredDirs, ignoredFiles, parse, codec, saveError);
    ghost var outcome := BuildOutcome(directoryPath, disk, ignoredDirs, ignoredFiles, parse, codec, saveError);
    assert log.messages == outcome.0 && files == outcome.1;
    messages, yielded := log.messages, log.yielded;
  }

  /** A build of a missing directory, or with no path, logs only the error and writes nothing. */
  lemma InvalidBuildOutcome(directoryPath: string, disk: Disk, ignoredDirs: set<string>, ignoredFiles: set<string>,
                            parse: string -> ParseResult, codec: Codec, saveError: Option<SaveError>)
    requires directoryPath == "" || directoryPath !in disk.dirs
    ensures BuildOutcome(directoryPath, disk, ignoredDirs, ignoredFiles, parse, codec, saveError) == ([InvalidDirectory], disk.files)
  {
  }

  /** The body of `build_knowledge_graph`, logging through `log`: the path
      check, the scan, and the build and save when there are Python files. */
  method BuildInto(log: ProgressLog, directoryPath: string, disk: Disk, ignoredDirs: set<string>, ignoredFiles: set<string>,
                   parse: string -> ParseResult, codec: Codec, saveError: Option<SaveError>)
    returns (stored: map<string, string>)
    modifies log
    ensures var outcome := BuildOutcome(directoryPath, disk, ignoredDirs, ignoredFiles, parse, codec, saveError);
      log.messages == old(log.messages) + outcome.0 && stored == outcome.1
    ensures Cumulative(old(log.messages), old(log.yielded)) ==> Cumulative(log.messages, log.yielded)
  {
    if directoryPath == "" || directoryPath !in disk.dirs {
      log.Log(InvalidDirectory);
      InvalidBuildOutcome(directoryPath, disk, ignoredDirs, ignoredFiles, parse, codec, saveError);
      return disk.files;
    }
    var path := GraphPath(codec.hash, disk.cwd, directoryPath).value;
    stored := ScanAndBuild(log, directoryPath, disk.dirs[directoryPath], ignoredDirs, ignoredFiles, parse, path, codec,
                           saveError, disk.files);
    ghost var outcome := ScanOutcome(directoryPath, GraphSources(disk.dirs[directoryPath], ignoredDirs, ignoredFiles), parse,
                                     path, codec, saveError, disk.files);
    assert log.messages == old(log.messages) + outcome.0 && stored == outcome.1;
  }

  /** The builder once the directory exists: scan it, and build and save the
      graph to `path` when there are Python files. */
  method ScanAndBuild(log: ProgressLog, directoryPath: string, root: Dir, ignoredDirs: set<string>, ignoredFiles: set<string>,
                      parse: string -> ParseResult, path: string, codec: Codec, saveError: Option<SaveError>,
                      stored: map<string, string>)
    returns (stored': map<string, string>)
    modifies log
    ensures var outcome := ScanOutcome(directoryPath, GraphSources(root, ignoredDirs, ignoredFiles), parse, path, codec,
                                       saveError, stored);
      log.messages == old(log.messages) + outcome.0 && stored' == outcome.1
    ensures Cumulative(old(log.messages), old(log.yielded)) ==> Cumulative(log.messages, log.yielded)
  {
    var scanning := "Scanning directory for graph construction: " + directoryPath;
    log.Log(scanning);
    var found := Collect(root, KeepsDir(ignoredDirs), GraphKeepsFile(ignoredFiles));
    assert found == GraphSources(root, ignoredDirs, ignoredFiles);
    ghost var head := log.messages;
    stored' := BuildFound(log, found, parse, path, codec, saveError, stored);
    ghost var rest := FoundOutcome(found, parse, path, codec, saveError, stored);
    assert log.messages == head + rest.0;
    AppendAssoc(old(log.messages), [scanning], rest.0);
  }

  /** The builder once the Python files are known: report that there are
      none, or count them and build and save the graph. */
  method BuildFound(log: ProgressLog, found: seq<Found>, parse: string -> ParseResult, path: string, codec: Codec,
                    saveError: Option<SaveError>, stored: map<string, string>)
    returns (stored': map<string, string>)
    modifies log
    ensures var outcome := FoundOutcome(found, parse, path, codec, saveError, stored);
      log.messages == old(log.messages) + outcome.0 && stored' == outcome.1
    ensures Cumulative(old(log.messages), old(log.yielded)) ==> Cumulative(log.messages, log.yielded)
  {
    if found == [] {
      log.Log(NoPythonFiles);
      return stored;
    }
    var count := "Found " + NatToString(|found|) + " Python files. Building knowledge graph...";
    log.Log(count);
    ghost var head := log.messages;
    stored' := AnalyzeAndSave(log, found, parse, path, codec, saveError, stored);
    ghost var rest := AnalysisOutcome(Entries(found), parse, path, codec, saveError, stored);
    assert log.messages == head + rest.0;
    AppendAssoc(old(log.messages), [count], rest.0);
  }

  /** The builder after the file count: analyze every file, deduplicate the
      edges and save the graph, or log the error saving it. */
  method AnalyzeAndSave(log: ProgressLog, found: seq<Found>, parse: string -> ParseResult, path: string, codec: Codec,
                        saveError: Option<SaveError>, stored: map<string, string>)
    returns (stored': map<string, string>)
    modifies log
    ensures (log.messages, stored') == (old(log.messages) + AnalysisOutcome(Entries(found), parse, path, codec, saveError, stored).0,
                                        AnalysisOutcome(Entries(found), parse, path, codec, saveError, stored).1)
    ensures Cumulative(old(log.messages), old(log.yielded)) ==> Cumulative(log.messages, log.yielded)
  {
    ghost var files := Entries(found);
    var nodes, edges, existing := AnalyzeAll(log, found, parse);
    edges := DedupEdges(edges);
    assert Graph(nodes, edges) == BuiltGraph(files, parse);
    stored' := stored;
    var last: string;
    match saveError {
      case None =>
        stored' := stored'[path := codec.encodeGraph(Graph(nodes, edges))];
        last := SavedMessage(path);
      case Some(OpenFailed(reason)) =>
        last := SaveFailedMessage(reason);
      case Some(DumpFailed(reason, written)) =>
        stored' := stored'[path := written];
        last := SaveFailedMessage(reason);
    }
    log.Log(last);
    AppendAssoc(old(log.messages), AllFileMessages(files, parse), [last]);
  }

  /** A graph written by the builder reads back through the search tool. */
  lemma BuiltGraphIsSearchable(query: string, target: string, disk: Disk, codec: Codec, files: seq<FileEntry>, parse: string -> ParseResult)
    requires RoundTrips(codec)
    requires target != ""
    requires var p := GraphPath(codec.hash, disk.cwd, target).value;
      p in disk.files && disk.files[p] == codec.encodeGraph(BuiltGraph(files, parse))
    ensures SearchOutput(query, target, disk, codec) == codec.encodeGraph(SearchResults(BuiltGraph(files, parse), query))
  {
    SearchReadsSavedGraph(query, target, disk, codec, BuiltGraph(files, parse));
  }

  // ---------------------------------------------------------------------
  // The upload pipeline's file filter and MIME fallback

  /** Not hidden, not ignored, and, when extensions are configured, ending in one of them. */
  function UploadKeepsFile(ignoredFiles: set<string>, allowedExtensions: seq<string>): string -> bool {
    f => !StartsWith(f, ".") && f !in ignoredFiles
         && (allowedExtensions == [] || exists k | 0 <= k < |allowedExtensions| :: EndsWith(f, allowedExtensions[k]))
  }

  /** The files `ingest_files` uploads, in walk order. */
  function UploadCandidates(root: Dir, ignoredDirs: set<string>, ignoredFiles: set<string>, allowedExtensions: seq<string>): seq<Found> {
    Walk(root, KeepsDir(ignoredDirs), UploadKeepsFile(ignoredFiles, allowedExtensions))
  }

  /** Exactly the files outside ignored directories that pass the name filter are uploaded. */
  lemma UploadCandidatesMembers(root: Dir, ignoredDirs: set<string>, ignoredFiles: set<string>, allowedExtensions: seq<string>, x: Found)
    ensures x in UploadCandidates(root, ignoredDirs, ignoredFiles, allowedExtensions) <==>
      (forall i :: 0 <= i < |x.dirs| ==> x.dirs[i] !in ignoredDirs)
      && !StartsWith(x.entry.name, ".") && x.entry.name !in ignoredFiles
      && (allowedExtensions == [] || exists k | 0 <= k < |allowedExtensions| :: EndsWith(x.entry.name, allowedExtensions[k]))
      && At(root, x.dirs, x.entry)
  {
    WalkMembers(root, KeepsDir(ignoredDirs), UploadKeepsFile(ignoredFiles, allowedExtensions), x);
  }

  /** The MIME type sent with an upload: the mapped type of the lower-cased
      extension, or plain text. */
  function MimeType(fileName: string, mimeMap: map<string, string>): (r: string)
    ensures Lower(Extension(fileName)) !in mimeMap ==> r == "text/plain"
  {
    var ext := Lower(Extension(fileName));
    if ext in mimeMap then mimeMap[ext] else "text/plain"
  }

  lemma {:induction false} LastDotOfSuffix(stem: string, ext: string)
    requires '.' !in ext
    ensures LastDot(stem + "." + ext) == |stem|
    decreases |ext|
  {
    if ext == [] {
      assert stem + "." + ext == stem + ".";
    } else {
      var s := stem + "." + ext;
      assert s[..|s| - 1] == stem + "." + ext[..|ext| - 1];
      LastDotOfSuffix(stem, ext[..|ext| - 1]);
    }
  }

  /** A name with a real stem is looked up by its last extension in any letter
      case; a file whose only dot leads (a dotfile) has no extension. */
  lemma MimeTypeLookup(stem: string, ext: string, mimeMap: map<string, string>)
    requires '.' !in ext
    requires exists i | 0 <= i < |stem| :: stem[i] != '.'
    requires Lower("." + ext) in mimeMap
    ensures MimeType(stem + "." + ext, mimeMap) == mimeMap[Lower("." + ext)]
    ensures "" !in mimeMap ==> MimeType("." + ext, mimeMap) == "text/plain"
  {
    var name := stem + "." + ext;
    LastDotOfSuffix(stem, ext);
    var i :| 0 <= i < |stem| && stem[i] != '.';
    assert name[i] != '.';
    assert name[|stem|..] == "." + ext;
    LastDotOfSuffix("", ext);
    assert "" + "." + ext == "." + ext;
  }

  // ---------------------------------------------------------------------
  // Viewing a saved graph

  /** `view_knowledge_graph`: the re-serialized graph and a status line, or no graph and an error. */
  function ViewKnowledgeGraph(repoPath: string, disk: Disk, codec: Codec): (r: (Option<string>, string))
    ensures r.0.Some? <==> repoPath != "" && GraphPath(codec.hash, disk.cwd, repoPath).value in disk.files
                           && codec.decodeGraph(disk.files[GraphPath(codec.hash, disk.cwd, repoPath).value]).GraphOk?
  {
    if repoPath == "" then (None, "❌ Error: No repository selected.")
    else
      var graphPath := GraphPath(codec.hash, disk.cwd, repoPath);
      if graphPath.None? then (None, "❌ Error: Could not determine graph path.")
      else if !disk.Exists(graphPath.value) then
        (None, "❌ Error: Knowledge graph file not found at `" + graphPath.value + "`. Please build it first.")
      else if graphPath.value !in disk.files then
        (None, "❌ Error reading or parsing knowledge graph file: " + IsADirectory(graphPath.value))
      else match codec.decodeGraph(disk.files[graphPath.value])
        case GraphBad(reason) => (None, "❌ Error reading or parsing knowledge graph file: " + reason)
        case GraphOk(g) => (Some(codec.encodeGraph(g)), "✅ Knowledge graph loaded.")
  }

  /** Viewing a repository right after a successful build shows the built graph. */
  lemma ViewAfterBuild(repoPath: string, disk: Disk, codec: Codec, files: seq<FileEntry>, parse: string -> ParseResult)
    requires RoundTrips(codec)
    requires repoPath != ""
    requires var p := GraphPath(codec.hash, disk.cwd, repoPath).value;
      p in disk.files && disk.files[p] == codec.encodeGraph(BuiltGraph(files, parse))
    ensures ViewKnowledgeGraph(repoPath, disk, codec) == (Some(codec.encodeGraph(BuiltGraph(files, parse))), "✅ Knowledge graph loaded.")
  {
  }

  // ---------------------------------------------------------------------
  // A worked example

  function ExampleParse(content: string): ParseResult {
    if content == "def foo(): bar()" then
      Parsed(Other([FunctionDef("foo", [Other([Call(Name("bar"), [])])])]))
    else if content == "import a" then Parsed(Other([Import(["a"])]))
    else SyntaxError("invalid syntax")
  }

  lemma ForestOfOne(file: string, scope: string, x: Tree)
    ensures ForestNodes(file, [x]) == TreeNodes(file, x)
    ensures ForestEdges(file, scope, [x]) == TreeEdges(file, scope, x)
  {
    assert [x][..0] == [];
  }

  /** What the analyzer finds in the two example files. */
  lemma ExampleTrees()
    ensures TreeNodes("a.py", ExampleParse("def foo(): bar()").tree) == [Node("foo", Function, "a.py")]
    ensures TreeEdges("a.py", "a.py", ExampleParse("def foo(): bar()").tree) == [Edge("foo", "bar", Calls)]
    ensures TreeNodes("b.py", ExampleParse("import a").tree) == []
    ensures TreeEdges("b.py", "b.py", ExampleParse("import a").tree) == [Edge("b.py", "a", Imports)]
  {
    var call := Call(Name("bar"), []);
    var body := Other([call]);
    var def := FunctionDef("foo", [body]);
    ForestOfOne("a.py", "foo", call);
    ForestOfOne("a.py", "foo", body);
    ForestOfOne("a.py", "a.py", def);
    assert TreeNodes("a.py", call) == [];
    assert TreeEdges("a.py", "foo", call) == [Edge("foo", "bar", Calls)];
    var imp := Import(["a"]);
    ForestOfOne("b.py", "b.py", imp);
    assert ImportEdges("b.py", ["a"]) == [Edge("b.py", "a", Imports)];
  }

  lemma ExampleContentsNotBlank()
    ensures Strip("def foo(): bar()") != "" && Strip("import a") != ""
  {
    var ca, cb := "def foo(): bar()", "import a";
    assert !IsSpace(ca[0]) && !IsSpace(cb[0]);
    StripEmptyIffBlank(ca);
    StripEmptyIffBlank(cb);
  }

  lemma ExampleFirstFile()
    ensures AnalyzeFile(Empty, FileEntry("a.py", "def foo(): bar()"), ExampleParse)
      == Acc([Node("a.py", File, "a.py"), Node("foo", Function, "a.py")], [Edge("foo", "bar", Calls)], {"a.py", "foo"})
  {
    ExampleContentsNotBlank();
    ExampleTrees();
    var withA := AddNode(Empty, FileNode("a.py"));
    assert withA == Acc([FileNode("a.py")], [], {"a.py"});
    var foo := Node("foo", Function, "a.py");
    assert [foo][..0] == [];
    assert AddNodes(withA, [foo]) == AddNode(withA, foo);
  }

  lemma ExampleSecondFile(acc: Acc)
    requires acc == Acc([Node("a.py", File, "a.py"), Node("foo", Function, "a.py")], [Edge("foo", "bar", Calls)], {"a.py", "foo"})
    ensures AnalyzeFile(acc, FileEntry("b.py", "import a"), ExampleParse)
      == Acc(acc.nodes + [Node("b.py", File, "b.py")], [Edge("foo", "bar", Calls), Edge("b.py", "a", Imports)], {"a.py", "foo", "b.py"})
  {
    ExampleContentsNotBlank();
    ExampleTrees();
    assert "b.py" !in acc.seen;
  }

  /** `a.py` defines `foo`, which calls `bar`; `b.py` imports `a`. */
  lemma TwoFileExample()
    ensures BuiltGraph([FileEntry("a.py", "def foo(): bar()"), FileEntry("b.py", "import a")], ExampleParse)
      == Graph([Node("a.py", File, "a.py"), Node("foo", Function, "a.py"), Node("b.py", File, "b.py")],
               [Edge("foo", "bar", Calls), Edge("b.py", "a", Imports)])
  {
    ExampleAnalysis();
    ExampleEdgesDistinct();
  }

  lemma ExampleAnalysis()
    ensures AnalyzeFiles([FileEntry("a.py", "def foo(): bar()"), FileEntry("b.py", "import a")], ExampleParse)
      == Acc([Node("a.py", File, "a.py"), Node("foo", Function, "a.py"), Node("b.py", File, "b.py")],
             [Edge("foo", "bar", Calls), Edge("b.py", "a", Imports)], {"a.py", "foo", "b.py"})
  {
    var fa := FileEntry("a.py", "def foo(): bar()");
    var fb := FileEntry("b.py", "import a");
    var files := [fa, fb];
    assert files[..1] == [fa];
    assert [fa][..0] == [];
    ExampleFirstFile();
    var accA := AnalyzeFiles([fa], ExampleParse);
    assert AnalyzeFiles([], ExampleParse) == Empty;
    assert accA == AnalyzeFile(AnalyzeFiles([fa][..0], ExampleParse), fa, ExampleParse);
    ExampleSecondFile(accA);
  }

  /** The two example edges have different keys, so deduplication keeps both. */
  lemma ExampleEdgesDistinct()
    ensures DedupEdges([Edge("foo", "bar", Calls), Edge("b.py", "a", Imports)])
      == [Edge("foo", "bar", Calls), Edge("b.py", "a", Imports)]
  {
    var e0, e1 := Edge("foo", "bar", Calls), Edge("b.py", "a", Imports);
    var es := [e0, e1];
    assert es[..1] == [e0];
    assert [e0][..0] == [];
    assert DedupEdges([e0]) == [e0];
    assert EdgeKey(e1) != EdgeKey(e0) by {
      assert EdgeKey(e1)[0] == 'b';
    }
    assert KeyIndex([e0], EdgeKey(e1)) == -1;
  }
}
