/**
  The knowledge graph written by the graph builder and read by the search
  tool and the diagram renderer: nodes for files, classes and functions,
  edges for imports and calls, and the textual key under which the builder
  removes duplicate edges.
 */
module KnowledgeGraph {
  import opened Seqs

  datatype NodeType = File | Class | Function {
    /** The `type` string stored in the graph file. */
    function Name(): string {
      match this
      case File => "file"
      case Class => "class"
      case Function => "function"
    }
  }

  datatype EdgeType = Imports | Calls {
    function Name(): string {
      match this
      case Imports => "imports"
      case Calls => "calls"
    }
  }

  /** `{"id": ..., "type": ..., "file": ...}` */
  datatype Node = Node(id: string, kind: NodeType, file: string)

  /** `{"source": ..., "target": ..., "type": ...}` */
  datatype Edge = Edge(source: string, target: string, kind: EdgeType)

  datatype Graph = Graph(nodes: seq<Node>, edges: seq<Edge>)

  /** The dictionary key `f"{source}-{target}-{type}"` used to drop duplicate edges. */
  function EdgeKey(e: Edge): string {
    e.source + "-" + e.target + "-" + e.kind.Name()
  }

  /** Index of the last '-' in `s`, or -1. */
  function LastDash(s: string): (k: int)
    ensures -1 <= k < |s|
    decreases |s|
  {
    if s == [] then -1
    else if s[|s| - 1] == '-' then |s| - 1
    else LastDash(s[..|s| - 1])
  }

  lemma {:induction false} LastDashOfJoin(x: string, y: string)
    requires '-' !in y
    ensures LastDash(x + "-" + y) == |x|
    decreases |y|
  {
    if y == [] {
      assert x + "-" + y == x + "-";
    } else {
      var s := x + "-" + y;
      assert s[..|s| - 1] == x + "-" + y[..|y| - 1];
      assert s[|s| - 1] == y[|y| - 1];
      LastDashOfJoin(x, y[..|y| - 1]);
    }
  }

  /** Cutting a string at its last '-' is unambiguous. */
  lemma SplitAtLastDash(x: string, y: string, x': string, y': string)
    requires '-' !in y && '-' !in y'
    requires x + "-" + y == x' + "-" + y'
    ensures x == x' && y == y'
  {
    var s := x + "-" + y;
    LastDashOfJoin(x, y);
    LastDashOfJoin(x', y');
    assert |x| == |x'|;
    assert x == s[..|x|];
    assert x' == (x' + "-" + y')[..|x'|];
    assert y == s[|x| + 1..];
    assert y' == (x' + "-" + y')[|x'| + 1..];
  }

  /** A target the analyzer produces: an identifier or a dotted module name, never containing '-'. */
  predicate PlainTarget(e: Edge) {
    '-' !in e.target
  }

  /** Two edges with plain targets share a key only when they are the same edge,
      whatever characters the sources (file names) contain. */
  lemma EdgeKeyInjective(a: Edge, b: Edge)
    requires PlainTarget(a) && PlainTarget(b)
    requires EdgeKey(a) == EdgeKey(b)
    ensures a == b
  {
    assert EdgeKey(a) == (a.source + "-" + a.target) + "-" + a.kind.Name();
    assert EdgeKey(b) == (b.source + "-" + b.target) + "-" + b.kind.Name();
    SplitAtLastDash(a.source + "-" + a.target, a.kind.Name(), b.source + "-" + b.target, b.kind.Name());
    SplitAtLastDash(a.source, a.target, b.source, b.target);
    assert a.kind.Name() == b.kind.Name();
  }

  /** The keys of `es`, in order. */
  function Keys(es: seq<Edge>): (ks: seq<string>)
    ensures |ks| == |es|
    ensures forall i :: 0 <= i < |es| ==> ks[i] == EdgeKey(es[i])
  {
    seq(|es|, i requires 0 <= i < |es| => EdgeKey(es[i]))
  }

  /** The position of the entry stored under key `k`, or -1. */
  function KeyIndex(es: seq<Edge>, k: string): (i: int)
    ensures -1 <= i < |es|
    ensures i >= 0 ==> EdgeKey(es[i]) == k
    ensures i < 0 ==> forall j :: 0 <= j < |es| ==> EdgeKey(es[j]) != k
    decreases |es|
  {
    if es == [] then -1
    else if EdgeKey(es[|es| - 1]) == k then |es| - 1
    else KeyIndex(es[..|es| - 1], k)
  }

  /** Storing `e` in a Python dict kept as its list of values: an existing key
      keeps its position and takes the new value, a new key goes last. */
  function Upsert(es: seq<Edge>, e: Edge): seq<Edge> {
    var i := KeyIndex(es, EdgeKey(e));
    if i < 0 then es + [e] else es[i := e]
  }

  /** `list({key(e): e for e in edges}.values())` */
  function DedupEdges(es: seq<Edge>): seq<Edge>
    decreases |es|
  {
    if es == [] then [] else Upsert(DedupEdges(es[..|es| - 1]), es[|es| - 1])
  }

  /** Whatever the edges, the result holds one entry per distinct key, in the
      order in which each key first occurs. */
  lemma {:induction false} DedupKeys(es: seq<Edge>)
    ensures Keys(DedupEdges(es)) == Distinct(Keys(es))
    decreases |es|
  {
    if es != [] {
      var prefix := es[..|es| - 1];
      var e := es[|es| - 1];
      DedupKeys(prefix);
      var prev := DedupEdges(prefix);
      var ks := Keys(es);
      assert ks[..|ks| - 1] == Keys(prefix);
      var dk := Distinct(Keys(prefix));
      assert Distinct(ks) == if EdgeKey(e) in dk then dk else dk + [EdgeKey(e)];
      assert DedupEdges(es) == Upsert(prev, e);
      var i := KeyIndex(prev, EdgeKey(e));
      if i < 0 {
        assert EdgeKey(e) !in Keys(prev);
        KeysAppend(prev, e);
      } else {
        assert Keys(prev)[i] == EdgeKey(e);
        KeysUpdate(prev, i, e);
      }
    }
  }

  lemma KeysAppend(es: seq<Edge>, e: Edge)
    ensures Keys(es + [e]) == Keys(es) + [EdgeKey(e)]
  {
  }

  lemma KeysUpdate(es: seq<Edge>, i: nat, e: Edge)
    requires i < |es| && EdgeKey(es[i]) == EdgeKey(e)
    ensures Keys(es[i := e]) == Keys(es)
  {
  }

  predicate PlainTargets(es: seq<Edge>) {
    forall e :: e in es ==> PlainTarget(e)
  }

  /** When every target is plain, the dictionary drops exactly the repeated
      edges: the result is each distinct edge once, in first-occurrence order. */
  lemma {:induction false} DedupIsDistinct(es: seq<Edge>)
    requires PlainTargets(es)
    ensures DedupEdges(es) == Distinct(es)
    decreases |es|
  {
    if es != [] {
      var prefix := es[..|es| - 1];
      var e := es[|es| - 1];
      assert PlainTargets(prefix);
      DedupIsDistinct(prefix);
      var prev := DedupEdges(prefix);
      DistinctProperties(prefix);
      var i := KeyIndex(prev, EdgeKey(e));
      if i >= 0 {
        assert prev[i] in prefix;
        EdgeKeyInjective(prev[i], e);
        assert prev[i := e] == prev;
      } else {
        assert e !in prev;
      }
    }
  }

  /** Consequently the saved edge list has no repeated edge and loses none. */
  lemma DedupEdgesSound(es: seq<Edge>)
    requires PlainTargets(es)
    ensures NoDuplicates(DedupEdges(es))
    ensures forall e :: e in DedupEdges(es) <==> e in es
  {
    DedupIsDistinct(es);
    DistinctProperties(es);
  }
}
