/** Replacing one company's graph: replace_tenant_graph (scripts/sync_neo4j_rag.py). */
module TenantGraph {
  import opened Wrappers
  import opened Numerals
  import opened GraphRows

  /** A node is its label and its properties. */
  datatype Node =
    | Company(id: nat)
    | ConversationNode(conversation: ConversationRow)
    | MessageNode(message: MessageRow)
    | DocumentNode(document: DocumentRow)
    | ChunkNode(chunk: ChunkRow)

  datatype Edge =
    | HasConversationEdge(from: Node, to: Node)
    | HasMessageEdge(from: Node, to: Node)
    | PartOfEdge(from: Node, to: Node)
    | CitesEdge(from: Node, to: Node, score: Option<real>)

  datatype Graph = Graph(nodes: seq<Node>, edges: seq<Edge>)

  function NodeKey(n: Node): string
    requires !n.Company?
  {
    match n
    case ConversationNode(r) => r.key
    case MessageNode(r) => r.key
    case DocumentNode(r) => r.key
    case ChunkNode(r) => r.key
  }

  // ---- The statements of the transaction ----

  /** STARTS WITH f"{empresa_id}:", or the company itself. */
  predicate Doomed(n: Node, company: nat) {
    if n.Company? then n.id == company else Decimal(company) + ":" <= NodeKey(n)
  }

  function KeepNodes(nodes: seq<Node>, company: nat): seq<Node> {
    if nodes == [] then [] else
      var last := nodes[|nodes| - 1];
      KeepNodes(nodes[..|nodes| - 1], company) + if Doomed(last, company) then [] else [last]
  }

  /** DETACH: an edge goes with either of its ends. */
  function KeepEdges(edges: seq<Edge>, company: nat): seq<Edge> {
    if edges == [] then [] else
      var last := edges[|edges| - 1];
      KeepEdges(edges[..|edges| - 1], company)
      + if Doomed(last.from, company) || Doomed(last.to, company) then [] else [last]
  }

  /** One row of an UNWIND. */
  datatype Create =
    | CreateConversation(company: nat, conversation: ConversationRow)
    | CreateMessage(message: MessageRow)
    | CreateDocument(document: DocumentRow)
    | CreateChunk(chunk: ChunkRow)
    | CreateCitation(citation: CitationRow)

  datatype Pattern =
    | CompanyWithId(id: nat)
    | ConversationWithKey(key: string)
    | MessageWithKey(key: string)
    | DocumentWithKey(key: string)
    | ChunkWithKey(key: string)

  predicate Fits(n: Node, p: Pattern) {
    match p
    case CompanyWithId(id) => n == Company(id)
    case ConversationWithKey(key) => n.ConversationNode? && n.conversation.key == key
    case MessageWithKey(key) => n.MessageNode? && n.message.key == key
    case DocumentWithKey(key) => n.DocumentNode? && n.document.key == key
    case ChunkWithKey(key) => n.ChunkNode? && n.chunk.key == key
  }

  /** MATCH: every node that fits, in order. */
  function Match(nodes: seq<Node>, p: Pattern): seq<Node> {
    if nodes == [] then [] else
      Match(nodes[..|nodes| - 1], p) + if Fits(nodes[|nodes| - 1], p) then [nodes[|nodes| - 1]] else []
  }

  function Repeat(n: Node, times: nat): seq<Node> {
    seq(times, _ => n)
  }

  datatype LinkKind = CompanyLink | ConversationLink | DocumentLink

  /** The edge between a matched node and the node created for it. */
  function Link(kind: LinkKind, matched: Node, created: Node): Edge {
    match kind
    case CompanyLink => HasConversationEdge(matched, created)
    case ConversationLink => HasMessageEdge(matched, created)
    case DocumentLink => PartOfEdge(created, matched)
  }

  function Links(kind: LinkKind, matched: seq<Node>, created: Node): seq<Edge> {
    seq(|matched|, i requires 0 <= i < |matched| => Link(kind, matched[i], created))
  }

  /** MATCH ... CREATE: one created node and one edge for every match. */
  function Attach(g: Graph, p: Pattern, kind: LinkKind, created: Node): Graph {
    var ms := Match(g.nodes, p);
    Graph(g.nodes + Repeat(created, |ms|), g.edges + Links(kind, ms, created))
  }

  /** A citation joins every matching message to every matching chunk. */
  function CitesFrom(m: Node, chunks: seq<Node>, score: Option<real>): seq<Edge> {
    seq(|chunks|, i requires 0 <= i < |chunks| => CitesEdge(m, chunks[i], score))
  }

  function CitesAll(messages: seq<Node>, chunks: seq<Node>, score: Option<real>): seq<Edge> {
    if messages == [] then [] else
      CitesAll(messages[..|messages| - 1], chunks, score) + CitesFrom(messages[|messages| - 1], chunks, score)
  }

  function Apply(g: Graph, c: Create): Graph {
    match c
    case CreateConversation(company, row) => Attach(g, CompanyWithId(company), CompanyLink, ConversationNode(row))
    case CreateMessage(row) => Attach(g, ConversationWithKey(row.conversationKey), ConversationLink, MessageNode(row))
    case CreateDocument(row) => Graph(g.nodes + [DocumentNode(row)], g.edges)
    case CreateChunk(row) => Attach(g, DocumentWithKey(row.documentKey), DocumentLink, ChunkNode(row))
    case CreateCitation(row) =>
      Graph(g.nodes, g.edges + CitesAll(Match(g.nodes, MessageWithKey(row.messageKey)),
                                        Match(g.nodes, ChunkWithKey(row.chunkKey)), row.score))
  }

  function ApplyAll(g: Graph, creates: seq<Create>): Graph {
    if creates == [] then g else Apply(ApplyAll(g, creates[..|creates| - 1]), creates[|creates| - 1])
  }

  /** The rows of one import, statement by statement. */
  function Conversations(rows: Rows): seq<Create> {
    seq(|rows.conversations|, i requires 0 <= i < |rows.conversations| => CreateConversation(rows.company, rows.conversations[i]))
  }

  function Messages(rows: Rows): seq<Create> {
    seq(|rows.messages|, i requires 0 <= i < |rows.messages| => CreateMessage(rows.messages[i]))
  }

  function Documents(rows: Rows): seq<Create> {
    seq(|rows.documents|, i requires 0 <= i < |rows.documents| => CreateDocument(rows.documents[i]))
  }

  function Chunks(rows: Rows): seq<Create> {
    seq(|rows.chunks|, i requires 0 <= i < |rows.chunks| => CreateChunk(rows.chunks[i]))
  }

  function CitationCreates(rows: Rows): seq<Create> {
    seq(|rows.citations|, i requires 0 <= i < |rows.citations| => CreateCitation(rows.citations[i]))
  }

  function Script(rows: Rows): seq<Create> {
    Conversations(rows) + Messages(rows) + Documents(rows) + Chunks(rows) + CitationCreates(rows)
  }

  function Without(g: Graph, company: nat): Graph {
    Graph(KeepNodes(g.nodes, company), KeepEdges(g.edges, company))
  }

  /** What the whole transaction leaves. */
  function Replaced(g: Graph, rows: Rows): Graph {
    var kept := Without(g, rows.company);
    ApplyAll(Graph(kept.nodes + [Company(rows.company)], kept.edges), Script(rows))
  }

  const WRITE_BATCH_SIZE: nat := 500

  lemma {:induction false} ApplyAllConcat(g: Graph, a: seq<Create>, b: seq<Create>)
    ensures ApplyAll(g, a + b) == ApplyAll(ApplyAll(g, a), b)
  {
    if b == [] {
      assert a + b == a;
    } else {
      assert (a + b)[..|a + b| - 1] == a + b[..|b| - 1];
      ApplyAllConcat(g, a, b[..|b| - 1]);
    }
  }

  /** The database. */
  class Database {
    var graph: Graph

    constructor ()
      ensures graph == Graph([], [])
    {
      graph := Graph([], []);
    }

    /** tx.run(query, rows=batch): UNWIND visits the rows in order. */
    method RunBatch(batch: seq<Create>)
      modifies this
      ensures graph == ApplyAll(old(graph), batch)
    {
      for i := 0 to |batch|
        invariant graph == ApplyAll(old(graph), batch[..i])
      {
        assert batch[..i + 1][..i] == batch[..i];
        graph := Apply(graph, batch[i]);
      }
      assert batch[..|batch|] == batch;
    }

    method WriteBatch(creates: seq<Create>)
      modifies this
      ensures graph == ApplyAll(old(graph), creates)
    {
      var start := 0;
      while start < |creates|
        invariant 0 <= start <= |creates|
        invariant graph == ApplyAll(old(graph), creates[..start])
      {
        var end := if start + WRITE_BATCH_SIZE < |creates| then start + WRITE_BATCH_SIZE else |creates|;
        ApplyAllConcat(old(graph), creates[..start], creates[start..end]);
        assert creates[..start] + creates[start..end] == creates[..end];
        RunBatch(creates[start..end]);
        start := end;
      }
      assert creates[..|creates|] == creates;
    }

    method ReplaceTenantGraph(rows: Rows)
      modifies this
      ensures graph == Replaced(old(graph), rows)
    {
      graph := Without(graph, rows.company);
      graph := Graph(graph.nodes + [Company(rows.company)], graph.edges);
      ghost var g := graph;
      WriteBatch(Conversations(rows));
      WriteBatch(Messages(rows));
      WriteBatch(Documents(rows));
      WriteBatch(Chunks(rows));
      WriteBatch(CitationCreates(rows));
      ScriptInOrder(g, rows);
    }
  }

  lemma ScriptInOrder(g: Graph, rows: Rows)
    ensures ApplyAll(g, Script(rows)) ==
            ApplyAll(ApplyAll(ApplyAll(ApplyAll(ApplyAll(g, Conversations(rows)), Messages(rows)), Documents(rows)), Chunks(rows)), CitationCreates(rows))
  {
    var a, b, c, d, e := Conversations(rows), Messages(rows), Documents(rows), Chunks(rows), CitationCreates(rows);
    hide *;
    ApplyAllConcat(g, a + b + c + d, e);
    ApplyAllConcat(g, a + b + c, d);
    ApplyAllConcat(g, a + b, c);
    ApplyAllConcat(g, a, b);
    ScriptIs(rows);
  }

  lemma ScriptIs(rows: Rows)
    ensures Script(rows) == Conversations(rows) + Messages(rows) + Documents(rows) + Chunks(rows) + CitationCreates(rows)
  {
  }
}
