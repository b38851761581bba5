/**
  The agent's tools (core/tools.py): the process-wide active workspace, the
  location of a repository's knowledge graph, the saved repository list,
  file listing and reading relative to the workspace, the knowledge-graph
  search, and the declarations the chat model is given.

  The file system is a value (`Disk`); JSON encoding and decoding and the md5
  digest are functions handed in as a `Codec`.
 */
module Tools {
  import opened Wrappers
  import opened Seqs
  import opened Text
  import opened FileTree
  import opened KnowledgeGraph

  /** What `json.loads` makes of a graph file. */
  datatype DecodedGraph = GraphOk(graph: Graph) | GraphBad(reason: string)

  /** JSON and hashing, which the model takes as given. */
  datatype Codec = Codec(
    hash: string -> string,               // hashlib.md5(s.encode()).hexdigest()
    encodePaths: seq<string> -> string,   // json.dumps(list_of_paths)
    encodeGraph: Graph -> string,         // json.dumps(graph, indent=2)
    decodeGraph: string -> DecodedGraph)  // json.load on a graph file

  /** A digest is written in hexadecimal, so it never contains '/'. */
  ghost predicate HexDigests(codec: Codec) {
    forall s :: '/' !in codec.hash(s)
  }

  /** Reading back a written graph gives the same graph. */
  ghost predicate RoundTrips(codec: Codec) {
    forall g :: codec.decodeGraph(codec.encodeGraph(g)) == GraphOk(g)
  }

  /** The file system: regular files by path, directory trees by path, and the
      process's current directory. Paths are compared as written. */
  datatype Disk = Disk(cwd: string, files: map<string, string>, dirs: map<string, Dir>) {
    /** `os.path.exists` */
    predicate Exists(p: string) {
      p in files || p in dirs
    }
  }

  /** Python's message when `open` is given a directory. */
  function IsADirectory(p: string): string {
    "[Errno 21] Is a directory: '" + p + "'"
  }

  // ---------------------------------------------------------------------
  // Graph location

  /** `os.path.join(os.getcwd(), "data", "graphs")` */
  function GraphDir(cwd: string): string {
    PathJoin(PathJoin(cwd, "data"), "graphs")
  }

  function GraphFileName(digest: string): string {
    "graph_" + digest + ".json"
  }

  /** `get_graph_path`: no path for an empty repository path; otherwise a file
      named after the md5 digest of the path, in one shared directory. */
  function GraphPath(hash: string -> string, cwd: string, repoPath: string): (r: Option<string>)
    ensures r.None? <==> repoPath == ""
  {
    if repoPath == "" then None
    else Some(PathJoin(GraphDir(cwd), GraphFileName(hash(repoPath))))
  }

  /** Every graph file is named after its repository's digest, so repositories
      whose digests differ never share a graph file. */
  lemma GraphPathsDistinct(codec: Codec, cwd: string, a: string, b: string)
    requires HexDigests(codec)
    requires a != "" && b != ""
    requires codec.hash(a) != codec.hash(b)
    ensures Basename(GraphPath(codec.hash, cwd, a).value) == GraphFileName(codec.hash(a))
    ensures GraphPath(codec.hash, cwd, a) != GraphPath(codec.hash, cwd, b)
  {
    var na := GraphFileName(codec.hash(a));
    var nb := GraphFileName(codec.hash(b));
    assert '/' !in codec.hash(a) && '/' !in codec.hash(b);
    assert '/' !in na && '/' !in nb;
    BasenameOfJoin(GraphDir(cwd), na);
    BasenameOfJoin(GraphDir(cwd), nb);
    assert na[6..|na| - 5] == codec.hash(a);
    assert nb[6..|nb| - 5] == codec.hash(b);
  }

  // ---------------------------------------------------------------------
  // The active workspace and the tools that use it

  /** Keeps the walk out of hidden and configured directories. */
  function ListingKeepsDir(ignoredDirs: set<string>): string -> bool {
    d => !StartsWith(d, ".") && d !in ignoredDirs
  }

  /** Keeps every file whose name does not start with '.'. */
  function ListingKeepsFile(): string -> bool {
    f => !StartsWith(f, ".")
  }

  /** What the listing walk finds under `root`. */
  function ListedFound(root: Dir, ignoredDirs: set<string>): seq<Found> {
    Walk(root, ListingKeepsDir(ignoredDirs), ListingKeepsFile())
  }

  /** `files_list`: a path for each file found, in walk order. A target that is
      not a directory yields nothing, as `os.walk` does. */
  function ListedPaths(target: string, disk: Disk, ignoredDirs: set<string>): (r: seq<string>)
  {
    if target !in disk.dirs then []
    else
      var fs := ListedFound(disk.dirs[target], ignoredDirs);
      seq(|fs|, i requires 0 <= i < |fs| => FoundPath(target, fs[i]))
  }

  /** What reading config.yaml gives `list_files`: no file, the ignored
      directories it lists, or the error loading it raised (an empty file, for
      one, loads as `None`, whose `.get` raises). */
  datatype ConfigLoad = NoConfig | Loaded(ignoredDirs: set<string>) | LoadFailed(reason: string)

  /** The directories the listing skips besides hidden ones: none without a config. */
  function IgnoredOf(config: ConfigLoad): set<string>
    requires !config.LoadFailed?
  {
    if config.Loaded? then config.ignoredDirs else {}
  }

  /** A listing is returned whole or, beyond 50000 characters, replaced by a message. */
  function ListingOutput(codec: Codec, paths: seq<string>): string {
    var output := codec.encodePaths(paths);
    if |output| > 50000 then
      "Error: File list is too long (" + NatToString(|output|) + " chars). Truncated. Found "
      + NatToString(|paths|) + " files. Please list a specific subdirectory."
    else output
  }

  /** The listing holds exactly the non-hidden files that sit below a chain of
      directories none of which is hidden or ignored. */
  lemma ListedFoundMembers(root: Dir, ignoredDirs: set<string>, x: Found)
    ensures x in ListedFound(root, ignoredDirs) <==>
      (forall i :: 0 <= i < |x.dirs| ==> !StartsWith(x.dirs[i], ".") && x.dirs[i] !in ignoredDirs)
      && !StartsWith(x.entry.name, ".") && At(root, x.dirs, x.entry)
  {
    WalkMembers(root, ListingKeepsDir(ignoredDirs), ListingKeepsFile(), x);
  }

  /** The listing is the JSON of the paths whenever that fits in 50000
      characters; beyond that it is only the message reporting the JSON's real
      length and the number of files, so the output is never longer than 50000
      characters unless it is that message. */
  lemma ListingOutputBounded(codec: Codec, paths: seq<string>)
    ensures var enc, out := codec.encodePaths(paths), ListingOutput(codec, paths);
      && (|enc| <= 50000 ==> out == enc)
      && (|enc| > 50000 ==>
            out == "Error: File list is too long (" + NatToString(|enc|) + " chars). Truncated. Found "
                   + NatToString(|paths|) + " files. Please list a specific subdirectory.")
      && (|out| <= 50000 || StartsWith(out, "Error: File list is too long (" + NatToString(|enc|) + " chars)"))
  {
  }

  /** A node matches when the lower-cased query occurs in its lower-cased id or file. */
  predicate NodeMatches(n: Node, query: string) {
    Contains(Lower(n.id), Lower(query)) || Contains(Lower(n.file), Lower(query))
  }

  /** An edge matches when the lower-cased query occurs in its source or target. */
  predicate EdgeMatches(e: Edge, query: string) {
    Contains(Lower(e.source), Lower(query)) || Contains(Lower(e.target), Lower(query))
  }

  function SearchResults(g: Graph, query: string): Graph {
    Graph(Filter(g.nodes, n => NodeMatches(n, query)), Filter(g.edges, e => EdgeMatches(e, query)))
  }

  /** The results are exactly the matching nodes and edges, in graph order. */
  lemma SearchResultsExact(g: Graph, query: string)
    ensures forall n :: n in SearchResults(g, query).nodes <==> n in g.nodes && NodeMatches(n, query)
    ensures forall e :: e in SearchResults(g, query).edges <==> e in g.edges && EdgeMatches(e, query)
    ensures IsSubsequence(SearchResults(g, query).nodes, g.nodes)
    ensures IsSubsequence(SearchResults(g, query).edges, g.edges)
  {
    FilterMembers(g.nodes, n => NodeMatches(n, query));
    FilterMembers(g.edges, e => EdgeMatches(e, query));
    FilterIsSubsequence(g.nodes, n => NodeMatches(n, query));
    FilterIsSubsequence(g.edges, e => EdgeMatches(e, query));
  }

  /** Searching for a node's own id always returns that node. */
  lemma SearchFindsNodeById(g: Graph, n: Node)
    requires n in g.nodes
    ensures n in SearchResults(g, n.id).nodes
  {
    ContainsItself(Lower(n.id));
    assert NodeMatches(n, n.id);
    FilterMembers(g.nodes, m => NodeMatches(m, n.id));
  }

  /** The two filtering loops of the search. */
  method SearchGraph(g: Graph, query: string) returns (r: Graph)
    ensures r == SearchResults(g, query)
  {
    var nodes: seq<Node> := [];
    for i := 0 to |g.nodes|
      invariant nodes == Filter(g.nodes[..i], n => NodeMatches(n, query))
    {
      assert g.nodes[..i + 1][..i] == g.nodes[..i];
      if NodeMatches(g.nodes[i], query) {
        nodes := nodes + [g.nodes[i]];
      }
    }
    var edges: seq<Edge> := [];
    for i := 0 to |g.edges|
      invariant edges == Filter(g.edges[..i], e => EdgeMatches(e, query))
    {
      assert g.edges[..i + 1][..i] == g.edges[..i];
      if EdgeMatches(g.edges[i], query) {
        edges := edges + [g.edges[i]];
      }
    }
    assert g.nodes[..|g.nodes|] == g.nodes;
    assert g.edges[..|g.edges|] == g.edges;
    r := Graph(nodes, edges);
  }

  /** The module-level `_WORKSPACE_PATH` and the tools that read or set it. */
  class Workspace {
    var path: string

    constructor()
      ensures path == "."
    {
      path := ".";
    }

    /** `set_workspace_path`: the workspace moves only to an existing, non-empty path. */
    method SetWorkspacePath(p: string, disk: Disk) returns (msg: string)
      modifies this
      ensures p == "" ==> path == old(path) && msg == "Error: No path provided."
      ensures p != "" && !disk.Exists(p) ==> path == old(path) && msg == "Error: Path '" + p + "' does not exist."
      ensures p != "" && disk.Exists(p) ==> path == p && msg == "Workspace path set to: " + p
    {
      if p == "" {
        return "Error: No path provided.";
      }
      if !disk.Exists(p) {
        return "Error: Path '" + p + "' does not exist.";
      }
      path := p;
      msg := "Workspace path set to: " + path;
    }

    /** The path a tool argument names: relative paths are taken from the workspace. */
    function Resolve(filePath: string): (full: string)
      reads this
      ensures IsAbs(filePath) ==> full == filePath
      ensures !IsAbs(filePath) ==> full == PathJoin(path, filePath)
    {
      if IsAbs(filePath) then filePath else PathJoin(path, filePath)
    }

    /** `read_file`: the content of an existing regular file, or an error message. */
    function ReadFile(filePath: string, disk: Disk): (r: string)
      reads this
      ensures Resolve(filePath) in disk.files ==> r == disk.files[Resolve(filePath)]
      ensures !disk.Exists(Resolve(filePath)) ==> StartsWith(r, "Error: File '")
      ensures disk.Exists(Resolve(filePath)) && Resolve(filePath) !in disk.files ==> StartsWith(r, "Error reading file: ")
    {
      var full := Resolve(filePath);
      if !disk.Exists(full) then "Error: File '" + full + "' does not exist."
      else if full in disk.files then disk.files[full]
      else "Error reading file: " + IsADirectory(full)
    }

    /** `list_files`: the walk over the target (the argument, or else the
        workspace) and the serialized, size-checked listing; a config.yaml
        that fails to load makes it return the listing error instead. */
    method ListFiles(directoryPath: string, disk: Disk, config: ConfigLoad, codec: Codec) returns (out: string)
      ensures config.LoadFailed? ==> out == "Error listing files: " + config.reason
      ensures !config.LoadFailed? ==>
        out == ListingOutput(codec, ListedPaths(if directoryPath != "" then directoryPath else path, disk, IgnoredOf(config)))
    {
      if config.LoadFailed? {
        return "Error listing files: " + config.reason;
      }
      var ignoredDirs := IgnoredOf(config);
      var target := if directoryPath != "" then directoryPath else path;
      var paths: seq<string> := [];
      if target in disk.dirs {
        var found := Collect(disk.dirs[target], ListingKeepsDir(ignoredDirs), ListingKeepsFile());
        for i := 0 to |found|
          invariant |paths| == i
          invariant forall k :: 0 <= k < i ==> paths[k] == FoundPath(target, found[k])
        {
          paths := paths + [FoundPath(target, found[i])];
        }
        assert found == ListedFound(disk.dirs[target], ignoredDirs);
      }
      assert paths == ListedPaths(target, disk, ignoredDirs);
      out := ListingOutput(codec, paths);
    }

    /** `search_knowledge_graph`: the graph of the given repository, or else of the
        workspace, filtered by the query. */
    method SearchKnowledgeGraph(query: string, repoPath: string, disk: Disk, codec: Codec) returns (out: string)
      ensures out == SearchOutput(query, if repoPath != "" then repoPath else path, disk, codec)
    {
      var target := if repoPath != "" then repoPath else path;
      var graphPath := GraphPath(codec.hash, disk.cwd, target);
      if graphPath.None? || !disk.Exists(graphPath.value) {
        return "Error: Knowledge graph not found for '" + target + "'. Please build it first on the Ingest page.";
      }
      if graphPath.value !in disk.files {
        return "Error searching knowledge graph: " + IsADirectory(graphPath.value);
      }
      match codec.decodeGraph(disk.files[graphPath.value])
      case GraphBad(reason) =>
        out := "Error searching knowledge graph: " + reason;
      case GraphOk(g) =>
        var results := SearchGraph(g, query);
        out := codec.encodeGraph(results);
    }
  }

  /** What the search returns for the graph stored for `target`. */
  function SearchOutput(query: string, target: string, disk: Disk, codec: Codec): string {
    var graphPath := GraphPath(codec.hash, disk.cwd, target);
    if graphPath.None? || !disk.Exists(graphPath.value) then
      "Error: Knowledge graph not found for '" + target + "'. Please build it first on the Ingest page."
    else if graphPath.value !in disk.files then
      "Error searching knowledge graph: " + IsADirectory(graphPath.value)
    else match codec.decodeGraph(disk.files[graphPath.value])
      case GraphBad(reason) => "Error searching knowledge graph: " + reason
      case GraphOk(g) => codec.encodeGraph(SearchResults(g, query))
  }

  /** A graph written for a repository is the one its searches read. */
  lemma SearchReadsSavedGraph(query: string, target: string, disk: Disk, codec: Codec, g: Graph)
    requires RoundTrips(codec)
    requires target != ""
    requires disk.files == disk.files[GraphPath(codec.hash, disk.cwd, target).value := codec.encodeGraph(g)]
    ensures SearchOutput(query, target, disk, codec) == codec.encodeGraph(SearchResults(g, query))
  {
    var p := GraphPath(codec.hash, disk.cwd, target).value;
    assert p in disk.files;
    assert disk.files[p] == codec.encodeGraph(g);
  }

  // ---------------------------------------------------------------------
  // Saved repositories

  /** `repositories.json` in the current directory; `None` while the file does not exist. */
  class RepositoryFile {
    var saved: Option<seq<string>>

    constructor(saved: Option<seq<string>>)
      ensures this.saved == saved
    {
      this.saved := saved;
    }

    /** `get_repositories` */
    function GetRepositories(): seq<string>
      reads this
    {
      saved.GetOr([])
    }

    /** `add_repository`: an existing path is recorded once; the file is written
        only when the path is new. */
    method AddRepository(p: string, disk: Disk) returns (ok: bool)
      modifies this
      ensures ok <==> disk.Exists(p)
      ensures !ok || p in old(GetRepositories()) ==> saved == old(saved)
      ensures ok && p !in old(GetRepositories()) ==> saved == Some(old(GetRepositories()) + [p])
      ensures ok ==> p in GetRepositories()
      ensures NoDuplicates(old(GetRepositories())) ==> NoDuplicates(GetRepositories())
    {
      if !disk.Exists(p) {
        return false;
      }
      var repos := GetRepositories();
      if p !in repos {
        repos := repos + [p];
        saved := Some(repos);
      }
      ok := true;
    }
  }

  // ---------------------------------------------------------------------
  // Declarations given to the model

  /** A function declaration: its name, its parameter names and the required ones. */
  datatype Declaration = Declaration(name: string, properties: seq<string>, required: seq<string>)

  /** `get_tool_definitions` */
  function ToolDefinitions(): (defs: seq<Declaration>)
    ensures |defs| == 4
    ensures forall d :: d in defs ==> forall r :: r in d.required ==> r in d.properties
  {
    [ Declaration("set_workspace_path", ["path"], ["path"]),
      Declaration("list_files", ["directory_path"], []),
      Declaration("read_file", ["file_path"], ["file_path"]),
      Declaration("search_knowledge_graph", ["query", "repo_path"], ["query"]) ]
  }

  /** The Python signatures of the tool functions: every parameter, and those
      without a default. */
  function Signature(name: string): Option<(seq<string>, seq<string>)> {
    if name == "set_workspace_path" then Some((["path"], ["path"]))
    else if name == "list_files" then Some((["directory_path"], []))
    else if name == "read_file" then Some((["file_path"], ["file_path"]))
    else if name == "search_knowledge_graph" then Some((["query", "repo_path"], ["query"]))
    else None
  }

  /** Each declaration lists exactly its function's parameters and requires
      exactly those without a default, so a call that follows a declaration
      always binds. */
  lemma DeclarationsMatchSignatures()
    ensures forall d :: d in ToolDefinitions() ==> Signature(d.name) == Some((d.properties, d.required))
    ensures forall i, j :: 0 <= i < j < |ToolDefinitions()| ==> ToolDefinitions()[i].name != ToolDefinitions()[j].name
  {
  }
}
