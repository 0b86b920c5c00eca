/**
 * emit/graphviz.py: `make_digraph`, the route table rendered as a Graphviz DOT digraph,
 * one `"origin" -> "destination";` line per edge.
 */
module Graphviz {
  import opened RouteTable

  /** The graph name `make_digraph` uses when none is given. */
  const DefaultGraphName: string := "router"

  function Header(name: string): string
  {
    "digraph " + name + " {\n"
  }

  const Footer: string := "\n}"

  /** The line for one edge. */
  function EdgeLine(origin: string, destination: string): string
  {
    "\"" + origin + "\" -> \"" + destination + "\";"
  }

  /** `sep.join(lines)` */
  function Join(lines: seq<string>, sep: string): string
  {
    if lines == [] then ""
    else if |lines| == 1 then lines[0]
    else lines[0] + sep + Join(lines[1..], sep)
  }

  /** Joining one more line puts exactly one separator before it. */
  lemma {:induction false} JoinAppend(lines: seq<string>, line: string, sep: string)
    requires lines != []
    ensures Join(lines + [line], sep) == Join(lines, sep) + sep + line
    decreases |lines|
  {
    if |lines| == 1 {
      assert (lines + [line])[1..] == [line];
    } else {
      assert (lines + [line])[1..] == lines[1..] + [line];
      JoinAppend(lines[1..], line, sep);
    }
  }

  type Edge = (string, string)

  /** The line of each edge, in order. */
  function Lines(edges: seq<Edge>): seq<string>
  {
    seq(|edges|, i requires 0 <= i < |edges| => EdgeLine(edges[i].0, edges[i].1))
  }

  /** The DOT text for the edges in the order given. */
  function Render(name: string, edges: seq<Edge>): (dot: string)
    ensures |dot| >= |Header(name)| + |Footer|
    ensures dot[..|Header(name)|] == Header(name)
    ensures dot[|dot| - |Footer|..] == Footer
  {
    Header(name) + Join(Lines(edges), "\n") + Footer
  }

  /** An empty table renders as the header directly followed by the footer. */
  lemma RenderEmpty(name: string)
    ensures Render(name, []) == "digraph " + name + " {\n\n}"
  {
    assert Lines([]) == [];
  }

  predicate NoRepeats<T(==)>(s: seq<T>)
  {
    forall i, j :: 0 <= i < j < |s| ==> s[i] != s[j]
  }

  /** `edges` lists every (origin, destination) pair of the table once, and nothing else. */
  ghost predicate Enumerates(edges: seq<Edge>, routes: Routes)
  {
    NoRepeats(edges) && forall e :: e in edges <==> e.0 in routes && e.1 in routes[e.0]
  }

  /** The sum of the sizes of the destination sets of `origins`. */
  function SizeSum(origins: seq<string>, routes: Routes): nat
    requires forall o :: o in origins ==> o in routes
  {
    if origins == [] then 0 else |routes[origins[0]]| + SizeSum(origins[1..], routes)
  }

  /** The sum over one more origin adds its destination count. */
  lemma {:induction false} SizeSumAppend(origins: seq<string>, o: string, routes: Routes)
    requires forall x :: x in origins ==> x in routes
    requires o in routes
    ensures SizeSum(origins + [o], routes) == SizeSum(origins, routes) + |routes[o]|
    decreases |origins|
  {
    if origins == [] {
      assert (origins + [o])[1..] == [];
    } else {
      assert (origins + [o])[1..] == origins[1..] + [o];
      SizeSumAppend(origins[1..], o, routes);
    }
  }

  lemma NoRepeatsAppend<T>(s: seq<T>, x: T)
    requires NoRepeats(s) && x !in s
    ensures NoRepeats(s + [x])
  {
  }

  lemma LinesAppend(edges: seq<Edge>, e: Edge)
    ensures Lines(edges + [e]) == Lines(edges) + [EdgeLine(e.0, e.1)]
  {
  }

  /**
   * `make_digraph(router, name)`: the header, the edge lines of every origin's
   * destinations joined by newlines, and the footer. The table is read in its
   * (unspecified) iteration order, reported in `edges` and `origins`.
   */
  method MakeDigraph(routes: Routes, name: string)
    returns (dot: string, ghost edges: seq<Edge>, ghost origins: seq<string>)
    ensures |dot| >= |Header(name)| + |Footer|
    ensures dot[..|Header(name)|] == Header(name) && dot[|dot| - |Footer|..] == Footer
    ensures Enumerates(edges, routes)
    ensures dot == Render(name, edges)
    ensures NoRepeats(origins) && forall o :: o in origins <==> o in routes
    ensures |edges| == SizeSum(origins, routes)
  {
    var header := Header(name);
    var footer := Footer;
    var lines: seq<string> := [];
    edges := [];
    origins := [];
    var pending := routes.Keys;
    while pending != {}
      invariant pending <= routes.Keys
      invariant forall o :: o in origins <==> o in routes.Keys - pending
      invariant NoRepeats(origins)
      invariant lines == Lines(edges)
      invariant NoRepeats(edges)
      invariant forall e :: e in edges <==> e.0 in origins && e.1 in routes[e.0]
      invariant |edges| == SizeSum(origins, routes)
      decreases pending
    {
      var origin :| origin in pending;
      lines, edges := AppendEdgeLines(origin, routes[origin], lines, edges);
      SizeSumAppend(origins, origin, routes);
      NoRepeatsAppend(origins, origin);
      origins := origins + [origin];
      pending := pending - {origin};
    }
    dot := header + Join(lines, "\n") + footer;
  }

  /** `make_digraph(router)`: the graph is named `router` when no name is given. */
  method MakeRouterDigraph(routes: Routes) returns (dot: string, ghost edges: seq<Edge>)
    ensures |dot| >= |"digraph router {\n"| + |Footer| && dot[..|"digraph router {\n"|] == "digraph router {\n"
    ensures Enumerates(edges, routes)
    ensures dot == Render(DefaultGraphName, edges)
  {
    ghost var origins;
    dot, edges, origins := MakeDigraph(routes, DefaultGraphName);
  }

  /** The inner loop of `make_digraph`: one line per destination of `origin`, appended. */
  method AppendEdgeLines(origin: string, destinations: set<string>, lines: seq<string>, ghost edges: seq<Edge>)
    returns (lines': seq<string>, ghost edges': seq<Edge>)
    requires lines == Lines(edges) && NoRepeats(edges)
    requires forall e :: e in edges ==> e.0 != origin
    ensures |lines'| == |lines| + |destinations| && lines'[..|lines|] == lines
    ensures lines' == Lines(edges') && NoRepeats(edges')
    ensures forall e :: e in edges' <==> e in edges || (e.0 == origin && e.1 in destinations)
    ensures |edges'| == |edges| + |destinations|
  {
    lines', edges' := lines, edges;
    var todo := destinations;
    while todo != {}
      invariant todo <= destinations
      invariant lines' == Lines(edges') && NoRepeats(edges')
      invariant |lines'| == |lines| + |destinations - todo| && lines'[..|lines|] == lines
      invariant forall e :: e in edges' <==> e in edges || (e.0 == origin && e.1 in destinations - todo)
      invariant |edges'| == |edges| + |destinations - todo|
      decreases todo
    {
      var destination :| destination in todo;
      LinesAppend(edges', (origin, destination));
      NoRepeatsAppend(edges', (origin, destination));
      lines' := lines' + [EdgeLine(origin, destination)];
      edges' := edges' + [(origin, destination)];
      todo := todo - {destination};
    }
  }

  /** The pairs of the table. */
  ghost function EdgeSet(routes: Routes): set<Edge>
  {
    set o, d | o in routes && d in routes[o] :: (o, d)
  }

  /** A sequence without repeats is as long as the set of its members. */
  lemma {:induction false} NoRepeatsCount(s: seq<Edge>)
    requires NoRepeats(s)
    ensures |set e | e in s| == |s|
    decreases |s|
  {
    if s != [] {
      var t := s[1..];
      NoRepeatsCount(t);
      assert (set e | e in s) == (set e | e in t) + {s[0]};
      assert s[0] !in t;
    }
  }

  /** The DOT text holds one line per edge of the table: as many lines as pairs. */
  lemma EnumerationCount(edges: seq<Edge>, routes: Routes)
    requires Enumerates(edges, routes)
    ensures |edges| == |EdgeSet(routes)|
  {
    NoRepeatsCount(edges);
    assert (set e | e in edges) == EdgeSet(routes);
  }
}
