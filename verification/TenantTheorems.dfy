/** Replacing one company leaves the others alone, and leaves exactly its projection. */
module TenantTheorems {
  import opened Wrappers
  import opened Numerals
  import opened GraphRows
  import opened TenantGraph

  // ---- Prefixes tell companies apart ----

  /** "a:" is never a prefix of a key of company b, unless a is b. */
  lemma {:induction false} PrefixesDisjoint(a: nat, b: nat, key: string)
    requires Decimal(a) + ":" <= key && Decimal(b) + ":" <= key
    ensures a == b
  {
    var s, t := Decimal(a), Decimal(b);
    assert (s + ":")[|s|] == ':' && (t + ":")[|t|] == ':';
    assert |s| == |t|;
    assert s == key[..|s|] && t == key[..|t|];
    ValueOfDecimal(a);
    ValueOfDecimal(b);
  }

  lemma OwnersDisjoint(n: Node, a: nat, b: nat)
    requires Doomed(n, a) && Doomed(n, b)
    ensures a == b
  {
    if !n.Company? {
      PrefixesDisjoint(a, b, NodeKey(n));
    }
  }

  /** No edge crosses companies: both ends belong to one company. */
  ghost predicate NoCrossing(edges: seq<Edge>) {
    forall i | 0 <= i < |edges| :: OneOwner(edges[i])
  }

  ghost predicate OneOwner(e: Edge) {
    exists c: nat :: Doomed(e.from, c) && Doomed(e.to, c)
  }

  // ---- What an import creates belongs to its company ----

  predicate KeyedRow(key: string, company: nat) {
    Decimal(company) + ":" <= key
  }

  predicate Keyed(c: Create, company: nat) {
    match c
    case CreateConversation(id, row) => id == company && KeyedRow(row.key, company)
    case CreateMessage(row) => KeyedRow(row.key, company) && KeyedRow(row.conversationKey, company)
    case CreateDocument(row) => KeyedRow(row.key, company)
    case CreateChunk(row) => KeyedRow(row.key, company) && KeyedRow(row.documentKey, company)
    case CreateCitation(row) => KeyedRow(row.messageKey, company) && KeyedRow(row.chunkKey, company)
  }

  predicate AllKeyed(creates: seq<Create>, company: nat) {
    forall i | 0 <= i < |creates| :: Keyed(creates[i], company)
  }

  predicate AllOwned(nodes: seq<Node>, company: nat) {
    forall i | 0 <= i < |nodes| :: Doomed(nodes[i], company)
  }

  predicate NoneOwned(nodes: seq<Node>, company: nat) {
    forall i | 0 <= i < |nodes| :: !Doomed(nodes[i], company)
  }

  predicate EdgesOwned(edges: seq<Edge>, company: nat) {
    forall i | 0 <= i < |edges| :: Doomed(edges[i].from, company) && Doomed(edges[i].to, company)
  }

  predicate PatternOf(p: Pattern, company: nat) {
    match p
    case CompanyWithId(id) => id == company
    case ConversationWithKey(key) => KeyedRow(key, company)
    case MessageWithKey(key) => KeyedRow(key, company)
    case DocumentWithKey(key) => KeyedRow(key, company)
    case ChunkWithKey(key) => KeyedRow(key, company)
  }

  lemma {:induction false} MatchOwned(nodes: seq<Node>, p: Pattern, company: nat)
    requires PatternOf(p, company)
    ensures AllOwned(Match(nodes, p), company)
  {
    if nodes != [] {
      MatchOwned(nodes[..|nodes| - 1], p, company);
    }
  }

  /** A company's patterns never match other companies' nodes. */
  lemma MatchIgnoresOthers(others: seq<Node>, own: seq<Node>, p: Pattern, company: nat)
    requires PatternOf(p, company) && NoneOwned(others, company)
    ensures Match(others + own, p) == Match(own, p)
  {
    MatchConcat(others, own, p);
    NoMatchForeign(others, p, company);
    hide Match;
    assert [] + Match(own, p) == Match(own, p);
  }

  lemma {:induction false} NoMatchForeign(others: seq<Node>, p: Pattern, company: nat)
    requires PatternOf(p, company) && NoneOwned(others, company)
    ensures Match(others, p) == []
  {
    if others != [] {
      var last := others[|others| - 1];
      NoMatchForeign(others[..|others| - 1], p, company);
      if TenantGraph.Fits(last, p) { FitIsOwned(last, p, company); }
      assert !Doomed(last, company);
      hide TenantGraph.Fits, Doomed, PatternOf;
    }
  }

  lemma FitIsOwned(n: Node, p: Pattern, company: nat)
    requires PatternOf(p, company) && TenantGraph.Fits(n, p)
    ensures Doomed(n, company)
  {
  }

  lemma AppendBeside<T>(others: seq<T>, own: seq<T>, more: seq<T>)
    ensures (others + own) + more == others + (own + more)
  {
  }

  function Beside(others: Graph, own: Graph): Graph {
    Graph(others.nodes + own.nodes, others.edges + own.edges)
  }

  lemma ApplyBeside(others: Graph, own: Graph, c: Create, company: nat)
    requires Keyed(c, company) && NoneOwned(others.nodes, company)
    ensures Apply(Beside(others, own), c) == Beside(others, Apply(own, c))
  {
    hide NoneOwned, KeyedRow, Match, CitesAll, Attach;
    match c
    case CreateConversation(id, row) =>
      AttachBeside(others, own, CompanyWithId(id), CompanyLink, ConversationNode(row), company);
    case CreateMessage(row) =>
      AttachBeside(others, own, ConversationWithKey(row.conversationKey), ConversationLink, MessageNode(row), company);
    case CreateDocument(row) =>
    case CreateChunk(row) =>
      AttachBeside(others, own, DocumentWithKey(row.documentKey), DocumentLink, ChunkNode(row), company);
    case CreateCitation(row) =>
      MatchIgnoresOthers(others.nodes, own.nodes, MessageWithKey(row.messageKey), company);
      MatchIgnoresOthers(others.nodes, own.nodes, ChunkWithKey(row.chunkKey), company);
  }

  lemma AttachBeside(others: Graph, own: Graph, p: Pattern, kind: LinkKind, created: Node, company: nat)
    requires PatternOf(p, company) && NoneOwned(others.nodes, company)
    ensures Attach(Beside(others, own), p, kind, created) == Beside(others, Attach(own, p, kind, created))
  {
    MatchIgnoresOthers(others.nodes, own.nodes, p, company);
    hide *;
    var ms := Match(own.nodes, p);
    AppendBeside(others.nodes, own.nodes, Repeat(created, |ms|));
    AppendBeside(others.edges, own.edges, Links(kind, ms, created));
    AttachIs(Beside(others, own), p, kind, created);
    AttachIs(own, p, kind, created);
    BesideIs(others, own);
    BesideIs(others, Attach(own, p, kind, created));
  }

  lemma AttachIs(g: Graph, p: Pattern, kind: LinkKind, created: Node)
    ensures Attach(g, p, kind, created)
            == Graph(g.nodes + Repeat(created, |Match(g.nodes, p)|), g.edges + Links(kind, Match(g.nodes, p), created))
  {
  }

  lemma BesideIs(others: Graph, own: Graph)
    ensures Beside(others, own) == Graph(others.nodes + own.nodes, others.edges + own.edges)
  {
  }

  /** An import computes beside the other companies what it computes alone. */
  lemma {:induction false} ApplyAllBeside(others: Graph, own: Graph, creates: seq<Create>, company: nat)
    requires AllKeyed(creates, company) && NoneOwned(others.nodes, company)
    ensures ApplyAll(Beside(others, own), creates) == Beside(others, ApplyAll(own, creates))
  {
    if creates != [] {
      ApplyAllBeside(others, own, creates[..|creates| - 1], company);
      hide Apply, NoneOwned, Keyed;
      ApplyBeside(others, ApplyAll(own, creates[..|creates| - 1]), creates[|creates| - 1], company);
    }
  }

  predicate GraphOwned(g: Graph, company: nat) {
    AllOwned(g.nodes, company) && EdgesOwned(g.edges, company)
  }

  lemma {:induction false} CitesOwned(messages: seq<Node>, chunks: seq<Node>, score: Option<real>, company: nat)
    requires AllOwned(messages, company) && AllOwned(chunks, company)
    ensures EdgesOwned(CitesAll(messages, chunks, score), company)
  {
    if messages != [] {
      CitesOwned(messages[..|messages| - 1], chunks, score, company);
    }
  }

  lemma ApplyOwned(g: Graph, c: Create, company: nat)
    requires Keyed(c, company) && GraphOwned(g, company)
    ensures GraphOwned(Apply(g, c), company)
  {
    match c
    case CreateConversation(id, row) => MatchOwned(g.nodes, CompanyWithId(id), company);
    case CreateMessage(row) => MatchOwned(g.nodes, ConversationWithKey(row.conversationKey), company);
    case CreateDocument(row) =>
    case CreateChunk(row) => MatchOwned(g.nodes, DocumentWithKey(row.documentKey), company);
    case CreateCitation(row) =>
      MatchOwned(g.nodes, MessageWithKey(row.messageKey), company);
      MatchOwned(g.nodes, ChunkWithKey(row.chunkKey), company);
      CitesOwned(Match(g.nodes, MessageWithKey(row.messageKey)), Match(g.nodes, ChunkWithKey(row.chunkKey)), row.score, company);
  }

  lemma {:induction false} ApplyAllOwned(g: Graph, creates: seq<Create>, company: nat)
    requires AllKeyed(creates, company) && GraphOwned(g, company)
    ensures GraphOwned(ApplyAll(g, creates), company)
  {
    if creates != [] {
      ApplyAllOwned(g, creates[..|creates| - 1], company);
      ApplyOwned(ApplyAll(g, creates[..|creates| - 1]), creates[|creates| - 1], company);
    }
  }

  // ---- What a replacement leaves ----

  /** What an import builds for its company on an empty graph. */
  function Projection(rows: Rows): Graph {
    ApplyAll(Graph([Company(rows.company)], []), Script(rows))
  }

  lemma {:induction false} KeptNotOwned(nodes: seq<Node>, company: nat)
    ensures NoneOwned(KeepNodes(nodes, company), company)
  {
    hide Doomed;
    if nodes != [] {
      KeptNotOwned(nodes[..|nodes| - 1], company);
    }
  }

  lemma {:induction false} OthersKept(nodes: seq<Node>, company: nat)
    requires NoneOwned(nodes, company)
    ensures KeepNodes(nodes, company) == nodes
  {
    hide Doomed;
    if nodes != [] {
      OthersKept(nodes[..|nodes| - 1], company);
      assert nodes == nodes[..|nodes| - 1] + [nodes[|nodes| - 1]];
    }
  }

  lemma {:induction false} OwnedGone(nodes: seq<Node>, company: nat)
    requires AllOwned(nodes, company)
    ensures KeepNodes(nodes, company) == []
  {
    hide Doomed;
    if nodes != [] {
      OwnedGone(nodes[..|nodes| - 1], company);
    }
  }

  /** After a replacement the graph is the other companies' part, untouched, beside the projection. */
  lemma {:induction false} ReplacedIsOthersAndProjection(g: Graph, rows: Rows)
    requires AllKeyed(Script(rows), rows.company)
    ensures Replaced(g, rows) == Beside(Without(g, rows.company), Projection(rows))
    ensures GraphOwned(Projection(rows), rows.company)
  {
    var kept := Without(g, rows.company);
    var own := Graph([Company(rows.company)], []);
    KeptNotOwned(g.nodes, rows.company);
    assert kept.edges + [] == kept.edges;
    assert GraphOwned(own, rows.company);
    hide Script, AllKeyed, GraphOwned;
    ApplyAllBeside(kept, own, Script(rows), rows.company);
    ApplyAllOwned(own, Script(rows), rows.company);
  }

  /** In plain terms: the company's own node, or a key that starts with its number and a colon. */
  predicate BelongsTo(n: Node, company: nat) {
    match n
    case Company(id) => id == company
    case ConversationNode(r) => Decimal(company) + ":" <= r.key
    case MessageNode(r) => Decimal(company) + ":" <= r.key
    case DocumentNode(r) => Decimal(company) + ":" <= r.key
    case ChunkNode(r) => Decimal(company) + ":" <= r.key
  }

  /** The two deletions remove exactly what belongs to the company, and the edges at it. */
  lemma {:induction false} DeletesExactlyTheCompany(g: Graph, company: nat)
    ensures forall n :: n in Without(g, company).nodes <==> n in g.nodes && !BelongsTo(n, company)
    ensures forall e :: e in Without(g, company).edges <==> e in g.edges && !BelongsTo(e.from, company) && !BelongsTo(e.to, company)
  {
    forall n ensures n in Without(g, company).nodes <==> n in g.nodes && !BelongsTo(n, company) {
      NodesLeft(g.nodes, company, n);
    }
    forall e ensures e in Without(g, company).edges <==> e in g.edges && !BelongsTo(e.from, company) && !BelongsTo(e.to, company) {
      EdgesLeft(g.edges, company, e);
    }
  }

  lemma {:induction false} NodesLeft(nodes: seq<Node>, company: nat, n: Node)
    ensures n in KeepNodes(nodes, company) <==> n in nodes && !BelongsTo(n, company)
  {
    assert Doomed(n, company) <==> BelongsTo(n, company);
    hide Doomed, BelongsTo;
    if nodes != [] {
      NodesLeft(nodes[..|nodes| - 1], company, n);
    }
  }

  lemma {:induction false} EdgesLeft(edges: seq<Edge>, company: nat, e: Edge)
    ensures e in KeepEdges(edges, company) <==> e in edges && !BelongsTo(e.from, company) && !BelongsTo(e.to, company)
  {
    assert Doomed(e.from, company) <==> BelongsTo(e.from, company);
    assert Doomed(e.to, company) <==> BelongsTo(e.to, company);
    hide Doomed, BelongsTo;
    if edges != [] {
      EdgesLeft(edges[..|edges| - 1], company, e);
    }
  }

  // ---- Another company's view ----

  function NodesOf(nodes: seq<Node>, company: nat): seq<Node> {
    if nodes == [] then [] else
      var last := nodes[|nodes| - 1];
      NodesOf(nodes[..|nodes| - 1], company) + if Doomed(last, company) then [last] else []
  }

  /** The edges with an end in the company. */
  function EdgesOf(edges: seq<Edge>, company: nat): seq<Edge> {
    if edges == [] then [] else
      var last := edges[|edges| - 1];
      EdgesOf(edges[..|edges| - 1], company) + if Doomed(last.from, company) || Doomed(last.to, company) then [last] else []
  }

  lemma {:induction false} NodesOfConcat(a: seq<Node>, b: seq<Node>, company: nat)
    ensures NodesOf(a + b, company) == NodesOf(a, company) + NodesOf(b, company)
  {
    if b == [] {
      assert a + b == a;
    } else {
      assert (a + b)[..|a + b| - 1] == a + b[..|b| - 1];
      NodesOfConcat(a, b[..|b| - 1], company);
    }
  }

  lemma {:induction false} EdgesOfConcat(a: seq<Edge>, b: seq<Edge>, company: nat)
    ensures EdgesOf(a + b, company) == EdgesOf(a, company) + EdgesOf(b, company)
  {
    if b == [] {
      assert a + b == a;
    } else {
      assert (a + b)[..|a + b| - 1] == a + b[..|b| - 1];
      EdgesOfConcat(a, b[..|b| - 1], company);
    }
  }

  lemma {:induction false} KeepNodesKeepsOthers(nodes: seq<Node>, a: nat, b: nat)
    requires a != b
    ensures NodesOf(KeepNodes(nodes, a), b) == NodesOf(nodes, b)
  {
    if nodes != [] {
      var before, last := nodes[..|nodes| - 1], nodes[|nodes| - 1];
      KeepNodesKeepsOthers(before, a, b);
      if Doomed(last, a) {
        assert !Doomed(last, b) by { if Doomed(last, b) { OwnersDisjoint(last, a, b); } }
        assert KeepNodes(before, a) + [] == KeepNodes(before, a);
        assert NodesOf(before, b) + [] == NodesOf(before, b);
      } else {
        NodesOfConcat(KeepNodes(before, a), [last], b);
        assert NodesOf([last], b) == NodesOf([last][..0], b) + if Doomed(last, b) then [last] else [];
      }
    }
  }

  lemma OneOwnerSeparates(e: Edge, a: nat, b: nat)
    requires a != b && OneOwner(e) && (Doomed(e.from, a) || Doomed(e.to, a))
    ensures !Doomed(e.from, b) && !Doomed(e.to, b)
  {
    var c: nat :| Doomed(e.from, c) && Doomed(e.to, c);
    if Doomed(e.from, a) { OwnersDisjoint(e.from, a, c); } else { OwnersDisjoint(e.to, a, c); }
    if Doomed(e.from, b) { OwnersDisjoint(e.from, b, c); }
    if Doomed(e.to, b) { OwnersDisjoint(e.to, b, c); }
  }

  lemma {:induction false} KeepEdgesKeepsOthers(edges: seq<Edge>, a: nat, b: nat)
    requires a != b && NoCrossing(edges)
    ensures EdgesOf(KeepEdges(edges, a), b) == EdgesOf(edges, b)
  {
    if edges != [] {
      var before, last := edges[..|edges| - 1], edges[|edges| - 1];
      KeepEdgesKeepsOthers(before, a, b);
      if Doomed(last.from, a) || Doomed(last.to, a) {
        OneOwnerSeparates(last, a, b);
        assert KeepEdges(before, a) + [] == KeepEdges(before, a);
        assert EdgesOf(before, b) + [] == EdgesOf(before, b);
      } else {
        EdgesOfConcat(KeepEdges(before, a), [last], b);
        assert EdgesOf([last], b) == EdgesOf([last][..0], b) + if Doomed(last.from, b) || Doomed(last.to, b) then [last] else [];
      }
    }
  }

  lemma {:induction false} NodesOfOther(nodes: seq<Node>, a: nat, b: nat)
    requires a != b && AllOwned(nodes, a)
    ensures NodesOf(nodes, b) == []
  {
    hide Doomed;
    if nodes != [] {
      NodesOfOther(nodes[..|nodes| - 1], a, b);
      if Doomed(nodes[|nodes| - 1], b) { OwnersDisjoint(nodes[|nodes| - 1], a, b); }
    }
  }

  lemma {:induction false} EdgesOfOther(edges: seq<Edge>, a: nat, b: nat)
    requires a != b && EdgesOwned(edges, a)
    ensures EdgesOf(edges, b) == []
  {
    hide Doomed;
    if edges != [] {
      var e := edges[|edges| - 1];
      EdgesOfOther(edges[..|edges| - 1], a, b);
      if Doomed(e.from, b) { OwnersDisjoint(e.from, a, b); }
      if Doomed(e.to, b) { OwnersDisjoint(e.to, a, b); }
    }
  }

  lemma OwnedByOther(g: Graph, a: nat, b: nat)
    requires a != b && GraphOwned(g, a)
    ensures NodesOf(g.nodes, b) == [] && EdgesOf(g.edges, b) == []
  {
    NodesOfOther(g.nodes, a, b);
    EdgesOfOther(g.edges, a, b);
  }

  /** Replacing company a leaves every node and edge of every other company, in order. */
  lemma {:induction false} OthersUntouched(g: Graph, rows: Rows, b: nat)
    requires AllKeyed(Script(rows), rows.company) && NoCrossing(g.edges) && b != rows.company
    ensures NodesOf(Replaced(g, rows).nodes, b) == NodesOf(g.nodes, b)
    ensures EdgesOf(Replaced(g, rows).edges, b) == EdgesOf(g.edges, b)
  {
    var a, p, kept := rows.company, Projection(rows), Without(g, rows.company);
    ReplacedIsOthersAndProjection(g, rows);
    hide Replaced, Projection, AllKeyed, Script, GraphOwned, NoCrossing;
    KeepNodesKeepsOthers(g.nodes, a, b);
    KeepEdgesKeepsOthers(g.edges, a, b);
    OwnedByOther(p, a, b);
    NodesOfConcat(kept.nodes, p.nodes, b);
    EdgesOfConcat(kept.edges, p.edges, b);
  }

  lemma {:induction false} KeptEdgesAreEdges(edges: seq<Edge>, company: nat)
    requires NoCrossing(edges)
    ensures NoCrossing(KeepEdges(edges, company))
  {
    if edges != [] {
      KeptEdgesAreEdges(edges[..|edges| - 1], company);
    }
  }

  lemma ReplacedNeverCrosses(g: Graph, rows: Rows)
    requires AllKeyed(Script(rows), rows.company) && NoCrossing(g.edges)
    ensures NoCrossing(Replaced(g, rows).edges)
  {
    ReplacedIsOthersAndProjection(g, rows);
    KeptEdgesAreEdges(g.edges, rows.company);
    var p := Projection(rows);
    hide Replaced, Projection, AllKeyed, Script;
    forall i | 0 <= i < |p.edges| ensures OneOwner(p.edges[i]) {
      assert Doomed(p.edges[i].from, rows.company) && Doomed(p.edges[i].to, rows.company);
    }
  }

  // ---- Runs of imports ----

  function Imports(g: Graph, runs: seq<Rows>): Graph {
    if runs == [] then g else Replaced(Imports(g, runs[..|runs| - 1]), runs[|runs| - 1])
  }

  ghost predicate AllRunsKeyed(runs: seq<Rows>) {
    forall i | 0 <= i < |runs| :: AllKeyed(Script(runs[i]), runs[i].company)
  }

  /** Over any run of imports no edge ever crosses companies, and a company that the run
      does not import keeps every node and edge it had. */
  lemma {:induction false} ImportsKeepTenantsApart(g: Graph, runs: seq<Rows>, b: nat)
    requires NoCrossing(g.edges) && AllRunsKeyed(runs)
    ensures NoCrossing(Imports(g, runs).edges)
    ensures (forall i | 0 <= i < |runs| :: runs[i].company != b) ==>
              NodesOf(Imports(g, runs).nodes, b) == NodesOf(g.nodes, b) && EdgesOf(Imports(g, runs).edges, b) == EdgesOf(g.edges, b)
  {
    if runs != [] {
      var before := Imports(g, runs[..|runs| - 1]);
      ImportsKeepTenantsApart(g, runs[..|runs| - 1], b);
      hide NoCrossing, Replaced, AllKeyed;
      ReplacedNeverCrosses(before, runs[|runs| - 1]);
      if runs[|runs| - 1].company != b {
        OthersUntouched(before, runs[|runs| - 1], b);
      }
    }
  }

  lemma {:induction false} KeepConcat(a: seq<Node>, b: seq<Node>, company: nat)
    ensures KeepNodes(a + b, company) == KeepNodes(a, company) + KeepNodes(b, company)
  {
    if b == [] {
      assert a + b == a;
    } else {
      assert (a + b)[..|a + b| - 1] == a + b[..|b| - 1];
      KeepConcat(a, b[..|b| - 1], company);
    }
  }

  lemma {:induction false} KeepEdgesConcat(a: seq<Edge>, b: seq<Edge>, company: nat)
    ensures KeepEdges(a + b, company) == KeepEdges(a, company) + KeepEdges(b, company)
  {
    if b == [] {
      assert a + b == a;
    } else {
      assert (a + b)[..|a + b| - 1] == a + b[..|b| - 1];
      KeepEdgesConcat(a, b[..|b| - 1], company);
    }
  }

  lemma {:induction false} KeepEdgesTwice(edges: seq<Edge>, company: nat)
    ensures KeepEdges(KeepEdges(edges, company), company) == KeepEdges(edges, company)
    ensures EdgesOwned(edges, company) ==> KeepEdges(edges, company) == []
  {
    if edges != [] {
      var before, last := edges[..|edges| - 1], edges[|edges| - 1];
      KeepEdgesTwice(before, company);
      if !(Doomed(last.from, company) || Doomed(last.to, company)) {
        var kept := KeepEdges(before, company);
        assert (kept + [last])[..|kept|] == kept;
      } else {
        assert KeepEdges(before, company) + [] == KeepEdges(before, company);
      }
    }
  }

  /** Only the last import of a company counts; in particular replacing twice equals once. */
  lemma {:induction false} LastImportWins(g: Graph, first: Rows, second: Rows)
    requires first.company == second.company
    requires AllKeyed(Script(first), first.company) && AllKeyed(Script(second), second.company)
    ensures Replaced(Replaced(g, first), second) == Replaced(g, second)
  {
    var a, p := first.company, Projection(first);
    var kept := Without(g, a);
    ReplacedIsOthersAndProjection(g, first);
    ReplacedIsOthersAndProjection(g, second);
    ReplacedIsOthersAndProjection(Replaced(g, first), second);
    KeptNotOwned(g.nodes, a);
    OthersKept(kept.nodes, a);
    OwnedGone(p.nodes, a);
    KeepEdgesTwice(g.edges, a);
    KeepEdgesTwice(p.edges, a);
    hide Replaced, Projection, AllKeyed, Script, AllOwned, EdgesOwned, NoneOwned, KeepNodes, KeepEdges;
    KeepConcat(kept.nodes, p.nodes, a);
    KeepEdgesConcat(kept.edges, p.edges, a);
    assert kept.nodes + [] == kept.nodes && kept.edges + [] == kept.edges;
    assert Without(Replaced(g, first), a) == kept;
  }

  // ---- The projection, said relationally ----

  lemma KeyOfKeyed(company: nat, id: string)
    ensures KeyedRow(KeyOf(company, id), company)
  {
    var p := Decimal(company) + ":";
    assert KeyOf(company, id)[..|p|] == p;
  }

  ghost predicate RowsKeyed(rows: Rows) {
    && (forall i | 0 <= i < |rows.conversations| :: KeyedRow(rows.conversations[i].key, rows.company))
    && (forall i | 0 <= i < |rows.messages| ::
          KeyedRow(rows.messages[i].key, rows.company) && KeyedRow(rows.messages[i].conversationKey, rows.company))
    && (forall i | 0 <= i < |rows.documents| :: KeyedRow(rows.documents[i].key, rows.company))
    && (forall i | 0 <= i < |rows.chunks| ::
          KeyedRow(rows.chunks[i].key, rows.company) && KeyedRow(rows.chunks[i].documentKey, rows.company))
    && (forall i | 0 <= i < |rows.citations| ::
          KeyedRow(rows.citations[i].messageKey, rows.company) && KeyedRow(rows.citations[i].chunkKey, rows.company))
  }

  lemma RowsKeyedGiveScript(rows: Rows)
    requires RowsKeyed(rows)
    ensures AllKeyed(Script(rows), rows.company)
  {
    hide KeyedRow;
    assert AllKeyed(Conversations(rows), rows.company);
    assert AllKeyed(Messages(rows), rows.company);
    assert AllKeyed(Documents(rows), rows.company);
    assert AllKeyed(Chunks(rows), rows.company);
    assert AllKeyed(CitationCreates(rows), rows.company);
    hide Conversations, Messages, Documents, Chunks, CitationCreates;
    KeyedConcat(Conversations(rows), Messages(rows), rows.company);
    KeyedConcat(Conversations(rows) + Messages(rows), Documents(rows), rows.company);
    KeyedConcat(Conversations(rows) + Messages(rows) + Documents(rows), Chunks(rows), rows.company);
    KeyedConcat(Conversations(rows) + Messages(rows) + Documents(rows) + Chunks(rows), CitationCreates(rows), rows.company);
  }

  lemma KeyedConcat(a: seq<Create>, b: seq<Create>, company: nat)
    requires AllKeyed(a, company) && AllKeyed(b, company)
    ensures AllKeyed(a + b, company)
  {
  }

  /** What BuildGraphRows makes of any data carries the company's prefix everywhere. */
  lemma {:induction false} BuiltRowsAreKeyed(company: nat, data: Data, rows: Rows)
    requires RowsOf(company, data, rows)
    ensures AllKeyed(Script(rows), company)
  {
    forall id ensures KeyedRow(KeyOf(company, id), company) {
      KeyOfKeyed(company, id);
    }
    forall i | 0 <= i < |rows.messages|
      ensures KeyedRow(rows.messages[i].key, company) && KeyedRow(rows.messages[i].conversationKey, company)
    {
      MessageRowsOrigin(company, data, |data.messages|, i);
    }
    forall i | 0 <= i < |rows.chunks|
      ensures KeyedRow(rows.chunks[i].key, company) && KeyedRow(rows.chunks[i].documentKey, company)
    {
      ChunkRowsOrigin(company, data, |data.chunks|, i);
    }
    forall i | 0 <= i < |rows.citations|
      ensures KeyedRow(rows.citations[i].messageKey, company) && KeyedRow(rows.citations[i].chunkKey, company)
    {
      CitationOrigin(company, data, |data.messages|, i);
    }
    hide KeyedRow, KeyOf;
    assert RowsKeyed(rows);
    RowsKeyedGiveScript(rows);
  }

  /** The node a relational reading of the rows puts in the graph. */
  ghost predicate RelationalNode(rows: Rows, n: Node) {
    match n
    case Company(id) => id == rows.company
    case ConversationNode(r) => r in rows.conversations
    case MessageNode(r) => r in rows.messages && exists c :: c in rows.conversations && c.key == r.conversationKey
    case DocumentNode(r) => r in rows.documents
    case ChunkNode(r) => r in rows.chunks && exists d :: d in rows.documents && d.key == r.documentKey
  }

  /** The edge a relational reading of the rows puts in the graph: joins on the keys. */
  ghost predicate RelationalEdge(rows: Rows, e: Edge) {
    && RelationalNode(rows, e.from) && RelationalNode(rows, e.to)
    && match e
       case HasConversationEdge(from, to) => from.Company? && to.ConversationNode?
       case HasMessageEdge(from, to) => from.ConversationNode? && to.MessageNode? && from.conversation.key == to.message.conversationKey
       case PartOfEdge(from, to) => from.ChunkNode? && to.DocumentNode? && from.chunk.documentKey == to.document.key
       case CitesEdge(from, to, score) =>
         && from.MessageNode? && to.ChunkNode?
         && CitationRow(from.message.key, to.chunk.key, score) in rows.citations
  }

  // ---- How many copies ----

  function Copies<T(==)>(s: seq<T>, x: T): nat {
    multiset(s)[x]
  }

  lemma LastCopies<T>(s: seq<T>, x: T)
    requires s != []
    ensures Copies(s, x) == Copies(s[..|s| - 1], x) + if s[|s| - 1] == x then 1 else 0
  {
    assert s == s[..|s| - 1] + [s[|s| - 1]];
  }

  lemma CopiesConcat<T>(a: seq<T>, b: seq<T>, x: T)
    ensures Copies(a + b, x) == Copies(a, x) + Copies(b, x)
  {
  }

  /** The statement row that creates a node. */
  function CreateOf(company: nat, n: Node): Create
    requires !n.Company?
  {
    match n
    case ConversationNode(r) => CreateConversation(company, r)
    case MessageNode(r) => CreateMessage(r)
    case DocumentNode(r) => CreateDocument(r)
    case ChunkNode(r) => CreateChunk(r)
  }

  /** What the row matches; documents match nothing. */
  function PatternFor(company: nat, n: Node): Pattern
    requires n.ConversationNode? || n.MessageNode? || n.ChunkNode?
  {
    match n
    case ConversationNode(_) => CompanyWithId(company)
    case MessageNode(r) => ConversationWithKey(r.conversationKey)
    case ChunkNode(r) => DocumentWithKey(r.documentKey)
  }

  function KindFor(n: Node): LinkKind
    requires n.ConversationNode? || n.MessageNode? || n.ChunkNode?
  {
    match n
    case ConversationNode(_) => CompanyLink
    case MessageNode(_) => ConversationLink
    case ChunkNode(_) => DocumentLink
  }

  /** How many nodes a row for n creates. */
  function Width(company: nat, nodes: seq<Node>, n: Node): nat {
    if n.Company? then 0 else if n.DocumentNode? then 1 else |Match(nodes, PatternFor(company, n))|
  }

  function CreatesOf(company: nat, ns: seq<Node>): seq<Create>
    requires forall i | 0 <= i < |ns| :: !ns[i].Company?
  {
    seq(|ns|, i requires 0 <= i < |ns| => CreateOf(company, ns[i]))
  }

  function LabelOf(n: Node): nat {
    match n
    case Company(_) => 0
    case ConversationNode(_) => 1
    case MessageNode(_) => 2
    case DocumentNode(_) => 3
    case ChunkNode(_) => 4
  }

  function PatternLabel(p: Pattern): nat {
    match p
    case CompanyWithId(_) => 0
    case ConversationWithKey(_) => 1
    case MessageWithKey(_) => 2
    case DocumentWithKey(_) => 3
    case ChunkWithKey(_) => 4
  }

  /** The created and the matched end of an edge that is no citation. */
  function CreatedEnd(e: Edge): Node {
    if e.PartOfEdge? then e.from else e.to
  }

  function MatchedEnd(e: Edge): Node {
    if e.PartOfEdge? then e.to else e.from
  }

  /** The edge is one its created end comes with. */
  predicate Proper(company: nat, e: Edge) {
    match e
    case HasConversationEdge(from, to) => to.ConversationNode? && from == Company(company)
    case HasMessageEdge(from, to) => to.MessageNode? && TenantGraph.Fits(from, ConversationWithKey(to.message.conversationKey))
    case PartOfEdge(from, to) => from.ChunkNode? && TenantGraph.Fits(to, DocumentWithKey(from.chunk.documentKey))
    case CitesEdge(_, _, _) => false
  }

  lemma {:induction false} RepeatCopies(x: Node, k: nat, n: Node)
    ensures Copies(Repeat(x, k), n) == if n == x then k else 0
  {
    if k > 0 {
      RepeatCopies(x, k - 1, n);
      assert Repeat(x, k) == Repeat(x, k - 1) + [x];
    } else {
      assert Repeat(x, k) == [];
    }
  }

  lemma {:induction false} MatchCopies(nodes: seq<Node>, p: Pattern, n: Node)
    ensures Copies(Match(nodes, p), n) == if TenantGraph.Fits(n, p) then Copies(nodes, n) else 0
  {
    hide TenantGraph.Fits;
    if nodes != [] {
      MatchCopies(nodes[..|nodes| - 1], p, n);
      assert nodes == nodes[..|nodes| - 1] + [nodes[|nodes| - 1]];
    }
  }

  lemma {:induction false} MatchConcat(a: seq<Node>, b: seq<Node>, p: Pattern)
    ensures Match(a + b, p) == Match(a, p) + Match(b, p)
  {
    hide TenantGraph.Fits;
    if b == [] {
      assert a + b == a;
    } else {
      assert (a + b)[..|a + b| - 1] == a + b[..|b| - 1];
      MatchConcat(a, b[..|b| - 1], p);
    }
  }

  lemma {:induction false} MatchRepeat(x: Node, k: nat, p: Pattern)
    ensures |Match(Repeat(x, k), p)| == if TenantGraph.Fits(x, p) then k else 0
  {
    hide TenantGraph.Fits;
    if k > 0 {
      MatchRepeat(x, k - 1, p);
      assert Repeat(x, k)[..k - 1] == Repeat(x, k - 1);
    }
  }

  lemma {:induction false} LinkCopies(kind: LinkKind, ms: seq<Node>, created: Node, e: Edge)
    ensures Copies(Links(kind, ms, created), e) == if e == Link(kind, MatchedEnd(e), created) then Copies(ms, MatchedEnd(e)) else 0
  {
    if ms == [] {
      assert Links(kind, ms, created) == [];
    } else {
      var front, last := ms[..|ms| - 1], ms[|ms| - 1];
      LinkCopies(kind, front, created, e);
      assert Links(kind, ms, created) == Links(kind, front, created) + [Link(kind, last, created)];
      assert ms == front + [last];
    }
  }

  // ---- One row ----

  /** A row for x adds Width copies of x. */
  lemma RowAddsNodes(company: nat, g: Graph, x: Node, n: Node)
    requires !x.Company?
    ensures Copies(Apply(g, CreateOf(company, x)).nodes, n) == Copies(g.nodes, n) + if n == x then Width(company, g.nodes, x) else 0
  {
    var k := Width(company, g.nodes, x);
    RowNodes(company, g, x);
    RepeatCopies(x, k, n);
    hide *;
    CopiesConcat(g.nodes, Repeat(x, k), n);
  }

  lemma RowMatches(company: nat, g: Graph, x: Node, p: Pattern)
    requires !x.Company?
    ensures |Match(Apply(g, CreateOf(company, x)).nodes, p)|
            == |Match(g.nodes, p)| + if TenantGraph.Fits(x, p) then Width(company, g.nodes, x) else 0
    ensures !TenantGraph.Fits(x, p) ==> Match(Apply(g, CreateOf(company, x)).nodes, p) == Match(g.nodes, p)
  {
    var k := Width(company, g.nodes, x);
    RowNodes(company, g, x);
    hide *;
    MatchConcat(g.nodes, Repeat(x, k), p);
    MatchRepeat(x, k, p);
  }

  lemma RowNodes(company: nat, g: Graph, x: Node)
    requires !x.Company?
    ensures Apply(g, CreateOf(company, x)).nodes == g.nodes + Repeat(x, Width(company, g.nodes, x))
  {
    hide Match;
  }

  /** A row for x adds one copy of each edge for every copy of its matched end. */
  lemma RowAddsEdges(company: nat, g: Graph, x: Node, e: Edge)
    requires !x.Company?
    ensures Copies(Apply(g, CreateOf(company, x)).edges, e)
            == Copies(g.edges, e) + if Proper(company, e) && CreatedEnd(e) == x then Copies(g.nodes, MatchedEnd(e)) else 0
  {
    if x.DocumentNode? {
      assert CreatedEnd(e) == x ==> !Proper(company, e);
    } else {
      var p := PatternFor(company, x);
      LinkCopies(KindFor(x), Match(g.nodes, p), x, e);
      MatchCopies(g.nodes, p, MatchedEnd(e));
      EdgeShape(company, x, e);
      hide Match, Proper, TenantGraph.Fits;
    }
  }

  lemma EdgeShape(company: nat, x: Node, e: Edge)
    requires x.ConversationNode? || x.MessageNode? || x.ChunkNode?
    ensures e == Link(KindFor(x), MatchedEnd(e), x) && TenantGraph.Fits(MatchedEnd(e), PatternFor(company, x))
            <==> Proper(company, e) && CreatedEnd(e) == x
  {
  }

  // ---- One statement ----

  predicate AllLabelled(ns: seq<Node>, rank: nat) {
    rank > 0 && forall i | 0 <= i < |ns| :: LabelOf(ns[i]) == rank
  }

  lemma LabelsFit(n: Node, p: Pattern)
    ensures TenantGraph.Fits(n, p) ==> LabelOf(n) == PatternLabel(p)
  {
  }

  function Stage(company: nat, g: Graph, ns: seq<Node>): Graph
    requires forall i | 0 <= i < |ns| :: !ns[i].Company?
  {
    ApplyAll(g, CreatesOf(company, ns))
  }

  lemma StageLast(company: nat, g: Graph, ns: seq<Node>, rank: nat)
    requires ns != [] && AllLabelled(ns, rank)
    ensures AllLabelled(ns[..|ns| - 1], rank) && !ns[|ns| - 1].Company?
    ensures Stage(company, g, ns) == Apply(Stage(company, g, ns[..|ns| - 1]), CreateOf(company, ns[|ns| - 1]))
  {
    assert CreatesOf(company, ns)[..|ns| - 1] == CreatesOf(company, ns[..|ns| - 1]);
    hide Apply;
  }

  /** A statement leaves the other labels' matches alone. */
  lemma {:induction false} StageKeepsMatches(company: nat, g: Graph, ns: seq<Node>, rank: nat, p: Pattern)
    requires AllLabelled(ns, rank) && PatternLabel(p) != rank
    ensures Match(Stage(company, g, ns).nodes, p) == Match(g.nodes, p)
  {
    if ns != [] {
      var x := ns[|ns| - 1];
      StageLast(company, g, ns, rank);
      LabelsFit(x, p);
      assert LabelOf(x) == rank;
      hide Stage, Apply, Match, TenantGraph.Fits, LabelOf;
      StageKeepsMatches(company, g, ns[..|ns| - 1], rank, p);
      RowMatches(company, Stage(company, g, ns[..|ns| - 1]), x, p);
    }
  }

  lemma WidthKept(company: nat, g: Graph, ns: seq<Node>, rank: nat, x: Node)
    requires AllLabelled(ns, rank) && LabelOf(x) == rank
    ensures Width(company, Stage(company, g, ns).nodes, x) == Width(company, g.nodes, x)
  {
    if x.ConversationNode? || x.MessageNode? || x.ChunkNode? {
      StageKeepsMatches(company, g, ns, rank, PatternFor(company, x));
    }
  }

  function Product(a: nat, b: nat): nat {
    a * b
  }

  lemma TimesOneMore(a: nat, w: nat)
    ensures Product(a + 1, w) == Product(a, w) + w
  {
  }

  /** A statement adds every listed node Width times. */
  lemma {:induction false} StageNodes(company: nat, g: Graph, ns: seq<Node>, rank: nat, n: Node)
    requires AllLabelled(ns, rank)
    ensures Copies(Stage(company, g, ns).nodes, n) == Copies(g.nodes, n) + Product(Copies(ns, n), Width(company, g.nodes, n))
  {
    if ns != [] {
      var front, x := ns[..|ns| - 1], ns[|ns| - 1];
      StageLast(company, g, ns, rank);
      assert LabelOf(x) == rank;
      WidthKept(company, g, front, rank, x);
      hide Stage, Apply, Width, LabelOf, Product, Copies;
      StageNodes(company, g, front, rank, n);
      RowAddsNodes(company, Stage(company, g, front), x, n);
      LastCopies(ns, n);
      hide AllLabelled;
      TimesOneMore(Copies(front, n), Width(company, g.nodes, n));
    } else {
      NothingTimes(Width(company, g.nodes, n));
    }
  }

  /** Nodes of other labels keep their number. */
  lemma OtherLabelsKept(company: nat, g: Graph, ns: seq<Node>, rank: nat, n: Node)
    requires AllLabelled(ns, rank) && LabelOf(n) != rank
    ensures Copies(ns, n) == 0
    ensures Copies(Stage(company, g, ns).nodes, n) == Copies(g.nodes, n)
  {
    assert n !in ns;
    StageNodes(company, g, ns, rank, n);
  }

  /** A statement adds an edge once for every listing of its created end and every copy of its matched end. */
  lemma {:induction false} StageEdges(company: nat, g: Graph, ns: seq<Node>, rank: nat, e: Edge)
    requires AllLabelled(ns, rank)
    ensures Copies(Stage(company, g, ns).edges, e) == Copies(g.edges, e)
            + if Proper(company, e) then Product(Copies(ns, CreatedEnd(e)), Copies(g.nodes, MatchedEnd(e))) else 0
  {
    if ns != [] {
      var front, x := ns[..|ns| - 1], ns[|ns| - 1];
      StageLast(company, g, ns, rank);
      assert LabelOf(x) == rank;
      if Proper(company, e) && CreatedEnd(e) == x {
        ProperLabels(company, e);
        OtherLabelsKept(company, g, front, rank, MatchedEnd(e));
      }
      hide Stage, Apply, Proper, LabelOf, Product, Copies;
      StageEdges(company, g, front, rank, e);
      RowAddsEdges(company, Stage(company, g, front), x, e);
      LastCopies(ns, CreatedEnd(e));
      TimesOneMore(Copies(front, CreatedEnd(e)), Copies(g.nodes, MatchedEnd(e)));
    }
  }

  lemma ProperLabels(company: nat, e: Edge)
    requires Proper(company, e)
    ensures LabelOf(MatchedEnd(e)) < LabelOf(CreatedEnd(e)) <= 4
  {
  }

  /** A statement whose rows create one node each adds as many matches as it lists. */
  lemma {:induction false} StageMatches(company: nat, g: Graph, ns: seq<Node>, rank: nat, p: Pattern)
    requires AllLabelled(ns, rank)
    requires forall i | 0 <= i < |ns| :: Width(company, g.nodes, ns[i]) == 1
    ensures |Match(Stage(company, g, ns).nodes, p)| == |Match(g.nodes, p)| + |Match(ns, p)|
  {
    if ns != [] {
      var front, x := ns[..|ns| - 1], ns[|ns| - 1];
      StageLast(company, g, ns, rank);
      assert LabelOf(x) == rank;
      WidthKept(company, g, front, rank, x);
      hide Stage, Apply, Width, LabelOf, TenantGraph.Fits;
      StageMatches(company, g, front, rank, p);
      RowMatches(company, Stage(company, g, front), x, p);
    }
  }

  // ---- The citation statement ----

  lemma {:induction false} CitesFromCopies(m: Node, chunks: seq<Node>, score: Option<real>, e: Edge)
    ensures Copies(CitesFrom(m, chunks, score), e)
            == if e.CitesEdge? && e.from == m && e.score == score then Copies(chunks, e.to) else 0
  {
    if chunks == [] {
      assert CitesFrom(m, chunks, score) == [];
    } else {
      var front, last := chunks[..|chunks| - 1], chunks[|chunks| - 1];
      CitesFromCopies(m, front, score, e);
      assert CitesFrom(m, chunks, score) == CitesFrom(m, front, score) + [CitesEdge(m, last, score)];
      assert chunks == front + [last];
    }
  }

  lemma {:induction false} CitesCopies(messages: seq<Node>, chunks: seq<Node>, score: Option<real>, e: Edge)
    ensures Copies(CitesAll(messages, chunks, score), e)
            == if e.CitesEdge? && e.score == score then Product(Copies(messages, e.from), Copies(chunks, e.to)) else 0
  {
    if messages != [] {
      var front, last := messages[..|messages| - 1], messages[|messages| - 1];
      CitesCopies(front, chunks, score, e);
      CitesFromCopies(last, chunks, score, e);
      LastCopies(messages, e.from);
      CopiesConcat(CitesAll(front, chunks, score), CitesFrom(last, chunks, score), e);
      hide Copies, Product, CitesFrom;
      if e.CitesEdge? {
        TimesOneMore(Copies(front, e.from), Copies(chunks, e.to));
      }
    }
  }

  /** The row a citation edge answers to. */
  predicate CitationEdge(e: Edge) {
    e.CitesEdge? && e.from.MessageNode? && e.to.ChunkNode?
  }

  function RowOfEdge(e: Edge): CitationRow
    requires CitationEdge(e)
  {
    CitationRow(e.from.message.key, e.to.chunk.key, e.score)
  }

  lemma CitationAdds(g: Graph, row: CitationRow, e: Edge)
    ensures Apply(g, CreateCitation(row)).nodes == g.nodes
    ensures Copies(Apply(g, CreateCitation(row)).edges, e) == Copies(g.edges, e)
            + if CitationEdge(e) && RowOfEdge(e) == row then Product(Copies(g.nodes, e.from), Copies(g.nodes, e.to)) else 0
  {
    CitesCopies(Match(g.nodes, MessageWithKey(row.messageKey)), Match(g.nodes, ChunkWithKey(row.chunkKey)), row.score, e);
    if e.CitesEdge? {
      MatchCopies(g.nodes, MessageWithKey(row.messageKey), e.from);
      MatchCopies(g.nodes, ChunkWithKey(row.chunkKey), e.to);
    }
    var cites := CitesAll(Match(g.nodes, MessageWithKey(row.messageKey)), Match(g.nodes, ChunkWithKey(row.chunkKey)), row.score);
    hide Match, CitesAll;
    CopiesConcat(g.edges, cites, e);
    hide Copies;
  }

  function CitationsOf(citations: seq<CitationRow>): seq<Create> {
    seq(|citations|, i requires 0 <= i < |citations| => CreateCitation(citations[i]))
  }

  lemma {:induction false} CitationStage(g: Graph, citations: seq<CitationRow>, e: Edge)
    ensures ApplyAll(g, CitationsOf(citations)).nodes == g.nodes
    ensures Copies(ApplyAll(g, CitationsOf(citations)).edges, e) == Copies(g.edges, e)
            + if CitationEdge(e) then Product(Copies(citations, RowOfEdge(e)), Product(Copies(g.nodes, e.from), Copies(g.nodes, e.to))) else 0
  {
    if citations != [] {
      var front, row := citations[..|citations| - 1], citations[|citations| - 1];
      assert CitationsOf(citations)[..|citations| - 1] == CitationsOf(front);
      hide Apply, Product, Copies;
      CitationStage(g, front, e);
      CitationAdds(ApplyAll(g, CitationsOf(front)), row, e);
      if CitationEdge(e) {
        LastCopies(citations, RowOfEdge(e));
        TimesOneMore(Copies(front, RowOfEdge(e)), Product(Copies(g.nodes, e.from), Copies(g.nodes, e.to)));
      }
    }
  }

  // ---- The whole projection ----

  function ConversationNodes(rows: Rows): seq<Node> {
    seq(|rows.conversations|, i requires 0 <= i < |rows.conversations| => ConversationNode(rows.conversations[i]))
  }

  function MessageNodes(rows: Rows): seq<Node> {
    seq(|rows.messages|, i requires 0 <= i < |rows.messages| => MessageNode(rows.messages[i]))
  }

  function DocumentNodes(rows: Rows): seq<Node> {
    seq(|rows.documents|, i requires 0 <= i < |rows.documents| => DocumentNode(rows.documents[i]))
  }

  function ChunkNodes(rows: Rows): seq<Node> {
    seq(|rows.chunks|, i requires 0 <= i < |rows.chunks| => ChunkNode(rows.chunks[i]))
  }

  /** How often a node's row is listed. */
  function Listed(rows: Rows, n: Node): nat {
    match n
    case Company(id) => if id == rows.company then 1 else 0
    case ConversationNode(_) => Copies(ConversationNodes(rows), n)
    case MessageNode(_) => Copies(MessageNodes(rows), n)
    case DocumentNode(_) => Copies(DocumentNodes(rows), n)
    case ChunkNode(_) => Copies(ChunkNodes(rows), n)
  }

  /** How often the row its key refers to is listed. */
  function Parents(rows: Rows, n: Node): nat {
    match n
    case MessageNode(r) => |Match(ConversationNodes(rows), ConversationWithKey(r.conversationKey))|
    case ChunkNode(r) => |Match(DocumentNodes(rows), DocumentWithKey(r.documentKey))|
    case _ => 1
  }

  function NodeCopies(rows: Rows, n: Node): nat {
    Product(Listed(rows, n), Parents(rows, n))
  }

  function EdgeCopies(rows: Rows, e: Edge): nat {
    if Proper(rows.company, e) then Product(Listed(rows, CreatedEnd(e)), NodeCopies(rows, MatchedEnd(e)))
    else if CitationEdge(e) then Product(Copies(rows.citations, RowOfEdge(e)), Product(NodeCopies(rows, e.from), NodeCopies(rows, e.to)))
    else 0
  }

  /** The nodes the k-th of the first four statements lists. */
  function StageList(rows: Rows, k: nat): seq<Node>
    requires 1 <= k <= 4
  {
    if k == 1 then ConversationNodes(rows) else if k == 2 then MessageNodes(rows)
    else if k == 3 then DocumentNodes(rows) else ChunkNodes(rows)
  }

  lemma StageListRank(rows: Rows, k: nat)
    requires 1 <= k <= 4
    ensures AllLabelled(StageList(rows, k), k)
    ensures forall i | 0 <= i < |StageList(rows, k)| :: !StageList(rows, k)[i].Company?
  {
  }

  /** The import on an empty graph after k statements. */
  function Built(rows: Rows, k: nat): Graph
    requires k <= 4
  {
    if k == 0 then Graph([Company(rows.company)], []) else
      StageListRank(rows, k);
      Stage(rows.company, Built(rows, k - 1), StageList(rows, k))
  }

  lemma ProjectionIsBuilt(rows: Rows)
    ensures Projection(rows) == ApplyAll(Built(rows, 4), CitationsOf(rows.citations))
  {
    assert Conversations(rows) == CreatesOf(rows.company, ConversationNodes(rows));
    assert Messages(rows) == CreatesOf(rows.company, MessageNodes(rows));
    assert Documents(rows) == CreatesOf(rows.company, DocumentNodes(rows));
    assert Chunks(rows) == CreatesOf(rows.company, ChunkNodes(rows));
    assert CitationCreates(rows) == CitationsOf(rows.citations);
    BuiltSteps(rows);
    ScriptInOrder(Graph([Company(rows.company)], []), rows);
    hide ApplyAll, Script, Built;
  }

  lemma BuiltSteps(rows: Rows)
    ensures Built(rows, 0) == Graph([Company(rows.company)], [])
    ensures Built(rows, 1) == ApplyAll(Built(rows, 0), CreatesOf(rows.company, ConversationNodes(rows)))
    ensures Built(rows, 2) == ApplyAll(Built(rows, 1), CreatesOf(rows.company, MessageNodes(rows)))
    ensures Built(rows, 3) == ApplyAll(Built(rows, 2), CreatesOf(rows.company, DocumentNodes(rows)))
    ensures Built(rows, 4) == ApplyAll(Built(rows, 3), CreatesOf(rows.company, ChunkNodes(rows)))
  {
    hide ApplyAll;
  }

  lemma BuiltNext(rows: Rows, k: nat)
    requires 1 <= k <= 4
    ensures AllLabelled(StageList(rows, k), k)
    ensures Built(rows, k) == Stage(rows.company, Built(rows, k - 1), StageList(rows, k))
  {
    StageListRank(rows, k);
    hide Stage;
  }

  lemma OnlyTheCompany(company: nat, p: Pattern)
    ensures Match([Company(company)], p) == if p == CompanyWithId(company) then [Company(company)] else []
  {
    assert [Company(company)][..0] == [];
    assert Match([], p) == [];
  }

  lemma ConversationsAreSingle(rows: Rows, i: nat)
    requires i < |ConversationNodes(rows)|
    ensures Width(rows.company, Built(rows, 0).nodes, ConversationNodes(rows)[i]) == 1
  {
    OnlyTheCompany(rows.company, CompanyWithId(rows.company));
  }

  /** A row creates one node for every row its key refers to. */
  lemma WidthIsParents(rows: Rows, n: Node)
    requires !n.Company?
    ensures Width(rows.company, Built(rows, LabelOf(n) - 1).nodes, n) == Parents(rows, n)
  {
    match n
    case ConversationNode(_) => OnlyTheCompany(rows.company, CompanyWithId(rows.company));
    case MessageNode(r) =>
      BuiltNext(rows, 1);
      forall i | 0 <= i < |ConversationNodes(rows)| ensures Width(rows.company, Built(rows, 0).nodes, ConversationNodes(rows)[i]) == 1 {
        ConversationsAreSingle(rows, i);
      }
      StageMatches(rows.company, Built(rows, 0), ConversationNodes(rows), 1, ConversationWithKey(r.conversationKey));
      OnlyTheCompany(rows.company, ConversationWithKey(r.conversationKey));
    case DocumentNode(_) =>
    case ChunkNode(r) => DocumentParents(rows, r.documentKey);
  }

  lemma DocumentParents(rows: Rows, key: string)
    ensures |Match(Built(rows, 3).nodes, DocumentWithKey(key))| == |Match(DocumentNodes(rows), DocumentWithKey(key))|
  {
    var p := DocumentWithKey(key);
    BuiltNext(rows, 1);
    BuiltNext(rows, 2);
    BuiltNext(rows, 3);
    StageKeepsMatches(rows.company, Built(rows, 0), ConversationNodes(rows), 1, p);
    StageKeepsMatches(rows.company, Built(rows, 1), MessageNodes(rows), 2, p);
    StageMatches(rows.company, Built(rows, 2), DocumentNodes(rows), 3, p);
    OnlyTheCompany(rows.company, p);
    hide Stage, Match;
  }

  lemma NothingTimes(n: nat)
    ensures Product(0, n) == 0 && Product(n, 0) == 0 && Product(n, 1) == n
  {
  }

  lemma {:induction false} NodesAfter(rows: Rows, k: nat, n: Node)
    requires k <= 4
    ensures Copies(Built(rows, k).nodes, n) == if LabelOf(n) <= k then NodeCopies(rows, n) else 0
  {
    if k == 0 {
      assert multiset([Company(rows.company)])[n] == if n == Company(rows.company) then 1 else 0;
      NothingTimes(Listed(rows, n));
    } else {
      NodesAfter(rows, k - 1, n);
      BuiltNext(rows, k);
      if LabelOf(n) == k {
        StageNodes(rows.company, Built(rows, k - 1), StageList(rows, k), k, n);
        WidthIsParents(rows, n);
        hide Stage, Width, Parents, Built, Copies, Product;
      } else {
        OtherLabelsKept(rows.company, Built(rows, k - 1), StageList(rows, k), k, n);
        hide Stage, Built, Copies, NodeCopies;
      }
    }
  }

  lemma {:induction false} EdgesAfter(rows: Rows, k: nat, e: Edge)
    requires k <= 4
    ensures Copies(Built(rows, k).edges, e) ==
            if Proper(rows.company, e) && LabelOf(CreatedEnd(e)) <= k then EdgeCopies(rows, e) else 0
  {
    if k == 0 {
      if Proper(rows.company, e) {
        ProperLabels(rows.company, e);
      }
    } else {
      EdgesAfter(rows, k - 1, e);
      EdgesOfStage(rows, k, e);
      hide Built, Copies, EdgeCopies, Proper, LabelOf;
    }
  }

  /** The k-th statement makes exactly the edges whose created end it lists. */
  lemma EdgesOfStage(rows: Rows, k: nat, e: Edge)
    requires 1 <= k <= 4
    ensures Copies(Built(rows, k).edges, e) == Copies(Built(rows, k - 1).edges, e) +
            if Proper(rows.company, e) && LabelOf(CreatedEnd(e)) == k then EdgeCopies(rows, e) else 0
  {
    BuiltNext(rows, k);
    var before, ns := Built(rows, k - 1), StageList(rows, k);
    StageEdges(rows.company, before, ns, k, e);
    if Proper(rows.company, e) {
      ProperLabels(rows.company, e);
      if LabelOf(CreatedEnd(e)) == k {
        NodesAfter(rows, k - 1, MatchedEnd(e));
        ListedIsCopies(rows, CreatedEnd(e));
        hide Stage, Built, Copies, NodeCopies, Product, Proper, Listed, StageList;
      } else {
        OtherLabelsKept(rows.company, before, ns, k, CreatedEnd(e));
        NothingTimes(Copies(before.nodes, MatchedEnd(e)));
        hide *;
      }
    }
  }

  lemma ListedIsCopies(rows: Rows, n: Node)
    requires !n.Company?
    ensures 1 <= LabelOf(n) <= 4 && Listed(rows, n) == Copies(StageList(rows, LabelOf(n)), n)
  {
  }

  /** The statements create every node once for each listing of its row and each listing of the row
      its key refers to, every edge to a parent once for each listing of its row and each copy of the
      parent, and every citation once for each listing and each pair of copies, whatever repeats. */
  lemma {:induction false} ProjectionCopies(rows: Rows)
    ensures forall n :: Copies(Projection(rows).nodes, n) == NodeCopies(rows, n)
    ensures forall e :: Copies(Projection(rows).edges, e) == EdgeCopies(rows, e)
  {
    ProjectionIsBuilt(rows);
    var g := Built(rows, 4);
    forall n ensures Copies(Projection(rows).nodes, n) == NodeCopies(rows, n) {
      CitationStage(g, rows.citations, CitesEdge(n, n, None));
      NodesAfter(rows, 4, n);
    }
    forall e ensures Copies(Projection(rows).edges, e) == EdgeCopies(rows, e) {
      CitationStage(g, rows.citations, e);
      EdgesAfter(rows, 4, e);
      NodesAfter(rows, 4, e.from);
      NodesAfter(rows, 4, e.to);
      hide ApplyAll, Built, Copies, NodeCopies, Product;
    }
  }

  // ---- Which nodes and edges there are ----

  lemma {:induction false} SomeMatch(nodes: seq<Node>, p: Pattern)
    ensures |Match(nodes, p)| > 0 <==> exists n :: n in nodes && TenantGraph.Fits(n, p)
  {
    hide TenantGraph.Fits;
    if nodes != [] {
      var front, last := nodes[..|nodes| - 1], nodes[|nodes| - 1];
      SomeMatch(front, p);
      assert forall n :: n in nodes <==> n in front || n == last;
    }
  }

  lemma CopiesPositive<T>(s: seq<T>, x: T)
    ensures Copies(s, x) > 0 <==> x in s
  {
  }

  lemma ProductPositive(a: nat, b: nat)
    ensures Product(a, b) > 0 <==> a > 0 && b > 0
  {
  }

  lemma ListedIff(rows: Rows, n: Node)
    ensures Listed(rows, n) > 0 <==>
            match n
            case Company(id) => id == rows.company
            case ConversationNode(r) => r in rows.conversations
            case MessageNode(r) => r in rows.messages
            case DocumentNode(r) => r in rows.documents
            case ChunkNode(r) => r in rows.chunks
  {
    match n
    case Company(id) =>
    case ConversationNode(r) =>
      CopiesPositive(ConversationNodes(rows), n);
      if r in rows.conversations {
        var i :| 0 <= i < |rows.conversations| && rows.conversations[i] == r;
        assert ConversationNodes(rows)[i] == n;
      }
    case MessageNode(r) =>
      CopiesPositive(MessageNodes(rows), n);
      if r in rows.messages {
        var i :| 0 <= i < |rows.messages| && rows.messages[i] == r;
        assert MessageNodes(rows)[i] == n;
      }
    case DocumentNode(r) =>
      CopiesPositive(DocumentNodes(rows), n);
      if r in rows.documents {
        var i :| 0 <= i < |rows.documents| && rows.documents[i] == r;
        assert DocumentNodes(rows)[i] == n;
      }
    case ChunkNode(r) =>
      CopiesPositive(ChunkNodes(rows), n);
      if r in rows.chunks {
        var i :| 0 <= i < |rows.chunks| && rows.chunks[i] == r;
        assert ChunkNodes(rows)[i] == n;
      }
  }

  lemma MessageParents(rows: Rows, key: string)
    ensures |Match(ConversationNodes(rows), ConversationWithKey(key))| > 0 <==>
            exists c :: c in rows.conversations && c.key == key
  {
    var ns, p := ConversationNodes(rows), ConversationWithKey(key);
    SomeMatch(ns, p);
    if c :| c in rows.conversations && c.key == key {
      var i :| 0 <= i < |rows.conversations| && rows.conversations[i] == c;
      assert ns[i] in ns && TenantGraph.Fits(ns[i], p);
    }
    if n :| n in ns && TenantGraph.Fits(n, p) {
      var i :| 0 <= i < |ns| && ns[i] == n;
      assert rows.conversations[i].key == key;
    }
  }

  lemma ChunkParents(rows: Rows, key: string)
    ensures |Match(DocumentNodes(rows), DocumentWithKey(key))| > 0 <==>
            exists d :: d in rows.documents && d.key == key
  {
    var ns, p := DocumentNodes(rows), DocumentWithKey(key);
    SomeMatch(ns, p);
    if d :| d in rows.documents && d.key == key {
      var i :| 0 <= i < |rows.documents| && rows.documents[i] == d;
      assert ns[i] in ns && TenantGraph.Fits(ns[i], p);
    }
    if n :| n in ns && TenantGraph.Fits(n, p) {
      var i :| 0 <= i < |ns| && ns[i] == n;
      assert rows.documents[i].key == key;
    }
  }

  lemma ParentsIff(rows: Rows, n: Node)
    ensures Parents(rows, n) > 0 <==>
            match n
            case MessageNode(r) => exists c :: c in rows.conversations && c.key == r.conversationKey
            case ChunkNode(r) => exists d :: d in rows.documents && d.key == r.documentKey
            case _ => true
  {
    match n
    case MessageNode(r) => MessageParents(rows, r.conversationKey);
    case ChunkNode(r) => ChunkParents(rows, r.documentKey);
    case _ =>
  }

  lemma RelationalNodeIff(rows: Rows, n: Node)
    ensures NodeCopies(rows, n) > 0 <==> RelationalNode(rows, n)
  {
    ProductPositive(Listed(rows, n), Parents(rows, n));
    ListedIff(rows, n);
    ParentsIff(rows, n);
    hide Listed, Parents, Product;
  }

  lemma RelationalEdgeIff(rows: Rows, e: Edge)
    ensures EdgeCopies(rows, e) > 0 <==> RelationalEdge(rows, e)
  {
    RelationalNodeIff(rows, e.from);
    RelationalNodeIff(rows, e.to);
    if Proper(rows.company, e) {
      ProductPositive(Listed(rows, CreatedEnd(e)), NodeCopies(rows, MatchedEnd(e)));
      ListedIff(rows, CreatedEnd(e));
      hide Listed, NodeCopies, Product;
    } else if CitationEdge(e) {
      var copies := Copies(rows.citations, RowOfEdge(e));
      CopiesPositive(rows.citations, RowOfEdge(e));
      ProductPositive(copies, Product(NodeCopies(rows, e.from), NodeCopies(rows, e.to)));
      ProductPositive(NodeCopies(rows, e.from), NodeCopies(rows, e.to));
      hide NodeCopies, Product, Copies, RelationalNode;
    }
  }

  /** In particular the projection holds exactly the relational reading of the rows: every node and
      edge is a row joined on its keys, and every such join is there. */
  lemma {:induction false} ProjectionIsRelational(rows: Rows)
    ensures forall n :: n in Projection(rows).nodes <==> RelationalNode(rows, n)
    ensures forall e :: e in Projection(rows).edges <==> RelationalEdge(rows, e)
  {
    ProjectionCopies(rows);
    hide Projection, NodeCopies, EdgeCopies, RelationalNode, RelationalEdge, Copies;
    forall n ensures n in Projection(rows).nodes <==> RelationalNode(rows, n) {
      CopiesPositive(Projection(rows).nodes, n);
      RelationalNodeIff(rows, n);
    }
    forall e ensures e in Projection(rows).edges <==> RelationalEdge(rows, e) {
      CopiesPositive(Projection(rows).edges, e);
      RelationalEdgeIff(rows, e);
    }
  }

  /** A citation row stands in the projection as an edge between its message and its chunk. */
  ghost predicate Cited(edges: seq<Edge>, r: CitationRow) {
    exists m, c :: CitedBetween(edges, r, m, c)
  }

  predicate CitedBetween(edges: seq<Edge>, r: CitationRow, m: MessageRow, c: ChunkRow) {
    m.key == r.messageKey && c.key == r.chunkKey && CitesEdge(MessageNode(m), ChunkNode(c), r.score) in edges
  }

  ghost predicate RowsLinked(rows: Rows) {
    && (forall i | 0 <= i < |rows.messages| :: MessageLinked(rows, i))
    && (forall i | 0 <= i < |rows.chunks| :: ChunkLinked(rows, i))
  }

  lemma LinkedMessage(rows: Rows, i: nat)
    requires i < |rows.messages| && MessageLinked(rows, i)
    ensures RelationalNode(rows, MessageNode(rows.messages[i]))
  {
  }

  lemma LinkedChunk(rows: Rows, i: nat)
    requires i < |rows.chunks| && ChunkLinked(rows, i)
    ensures RelationalNode(rows, ChunkNode(rows.chunks[i]))
  {
  }

  lemma LinkedCitation(rows: Rows, i: nat)
    requires i < |rows.citations| && CitationLinked(rows, i) && RowsLinked(rows)
    ensures Cited(Projection(rows).edges, rows.citations[i])
  {
    var r := rows.citations[i];
    ProjectionIsRelational(rows);
    hide Projection;
    var m :| m in rows.messages && m.key == r.messageKey;
    var c :| c in rows.chunks && c.key == r.chunkKey;
    var j :| 0 <= j < |rows.messages| && rows.messages[j] == m;
    var k :| 0 <= k < |rows.chunks| && rows.chunks[k] == c;
    assert MessageLinked(rows, j) && ChunkLinked(rows, k);
    LinkedMessage(rows, j);
    LinkedChunk(rows, k);
    assert RelationalEdge(rows, CitesEdge(MessageNode(m), ChunkNode(c), r.score));
    assert CitedBetween(Projection(rows).edges, r, m, c);
  }

  /** With linked rows, as BuildGraphRows makes them, no row is dropped by its MATCH. */
  lemma {:induction false} EveryRowIsProjected(company: nat, data: Data, rows: Rows)
    requires RowsOf(company, data, rows)
    ensures forall i | 0 <= i < |rows.messages| :: MessageNode(rows.messages[i]) in Projection(rows).nodes
    ensures forall i | 0 <= i < |rows.chunks| :: ChunkNode(rows.chunks[i]) in Projection(rows).nodes
    ensures forall i | 0 <= i < |rows.citations| :: Cited(Projection(rows).edges, rows.citations[i])
  {
    RowsAreLinked(company, data, rows);
    ProjectionIsRelational(rows);
    hide Projection, RowsOf, RelationalNode, Cited;
    forall i | 0 <= i < |rows.messages| ensures RelationalNode(rows, MessageNode(rows.messages[i])) {
      LinkedMessage(rows, i);
    }
    forall i | 0 <= i < |rows.chunks| ensures RelationalNode(rows, ChunkNode(rows.chunks[i])) {
      LinkedChunk(rows, i);
    }
    forall i | 0 <= i < |rows.citations| ensures Cited(Projection(rows).edges, rows.citations[i]) {
      LinkedCitation(rows, i);
    }
  }
}
