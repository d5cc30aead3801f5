/** Rows of the tenant graph, from the company's Mongo collections (scripts/sync_neo4j_rag.py). */
module GraphRows {
  import opened Characters
  import opened Wrappers
  import opened Numerals

  // ---- Source data; ids are already str()-ed ----

  datatype Conversation = Conversation(id: string, status: string, agent: string, startedAt: string)

  datatype Message = Message(
    id: string, conversationId: string, role: string, agent: string, skill: string, createdAt: string,
    sources: seq<Source>)

  /** One entry of a message's sources; Other is anything that is not a dict of type "rag". */
  datatype Source = Rag(ref: string, score: Option<real>) | Other

  datatype Document = Document(id: string, slug: string, title: string, source: string, category: string, version: string)

  /** The number is None when the stored value is not an int. */
  datatype Chunk = Chunk(documentId: string, number: Option<int>)

  datatype Data = Data(
    conversations: seq<Conversation>, messages: seq<Message>, documents: seq<Document>, chunks: seq<Chunk>)

  // ---- Rows ----

  datatype ConversationRow = ConversationRow(key: string, mongoId: string, status: string, agent: string, startedAt: string)
  datatype MessageRow = MessageRow(
    key: string, conversationKey: string, role: string, agent: string, skill: string, createdAt: string)
  datatype DocumentRow = DocumentRow(
    key: string, mongoId: string, slug: string, title: string, source: string, category: string, version: string)
  datatype ChunkRow = ChunkRow(key: string, documentKey: string, number: int)
  datatype CitationRow = CitationRow(messageKey: string, chunkKey: string, score: Option<real>)

  datatype Rows = Rows(
    company: nat,
    conversations: seq<ConversationRow>, messages: seq<MessageRow>, documents: seq<DocumentRow>,
    chunks: seq<ChunkRow>, citations: seq<CitationRow>, skipped: nat)

  /** f"{empresa_id}:{id}" */
  function KeyOf(company: nat, id: string): string {
    Decimal(company) + ":" + id
  }

  function ChunkKey(company: nat, documentId: string, number: int): string {
    KeyOf(company, documentId + ":" + IntText(number))
  }

  // ---- The citation reference: ^doc:([0-9a-fA-F]{24})\s+chunk:(\d+)$ ----

  predicate IsHex(c: char) {
    IsDigit(c) || 'a' <= c <= 'f' || 'A' <= c <= 'F'
  }

  function Lower(c: char): char {
    if 'A' <= c <= 'Z' then (c as int + 32) as char else c
  }

  function LowerText(s: string): string {
    seq(|s|, i requires 0 <= i < |s| => Lower(s[i]))
  }

  function SkipSpace(s: string): string {
    if s != "" && IsSpace(s[0]) then SkipSpace(s[1..]) else s
  }

  /** The lower-cased document id and the chunk number, if the whole text matches. */
  function ParseRef(ref: string): Option<(string, nat)> {
    if |ref| < 29 || ref[..4] != "doc:" || !(forall i | 4 <= i < 28 :: IsHex(ref[i])) || !IsSpace(ref[28]) then None
    else
      var rest := SkipSpace(ref[28..]);
      if |rest| < 7 || rest[..6] != "chunk:" || !AllDigits(rest[6..]) then None
      else Some((LowerText(ref[4..28]), Value(rest[6..])))
  }

  /** The reference the retriever writes reads back. */
  lemma {:induction false} RetrieverRefParses(id: string, number: nat)
    requires |id| == 24 && forall i | 0 <= i < 24 :: IsHex(id[i])
    ensures ParseRef("doc:" + id + " chunk:" + Decimal(number)) == Some((LowerText(id), number))
  {
    var tail := "chunk:" + Decimal(number);
    var ref := "doc:" + id + " chunk:" + Decimal(number);
    assert ref == "doc:" + (id + ([' '] + tail));
    assert ref[..4] == "doc:" && ref[4..28] == id && ref[28..] == [' '] + tail;
    assert forall i | 4 <= i < 28 :: ref[i] == id[i - 4];
    assert ref[28] == ' ';
    assert SkipSpace(ref[28..]) == SkipSpace(tail) == tail;
    assert tail[6..] == Decimal(number) && tail[..6] == "chunk:";
    ValueOfDecimal(number);
  }

  // ---- Building the rows ----

  predicate HasConversation(items: seq<Conversation>, id: string) {
    exists i :: 0 <= i < |items| && items[i].id == id
  }

  predicate HasDocument(items: seq<Document>, id: string) {
    exists i :: 0 <= i < |items| && items[i].id == id
  }

  /** conversation_by_id: a dict keeps the first position and the last value of an id. */
  function ById(items: seq<Conversation>): seq<Conversation> {
    if items == [] then [] else
      var last, rest := items[|items| - 1], ById(items[..|items| - 1]);
      if HasConversation(rest, last.id)
      then seq(|rest|, i requires 0 <= i < |rest| => if rest[i].id == last.id then last else rest[i])
      else rest + [last]
  }

  function ConversationRows(company: nat, items: seq<Conversation>): seq<ConversationRow> {
    seq(|items|, i requires 0 <= i < |items| =>
      ConversationRow(KeyOf(company, items[i].id), items[i].id, items[i].status, items[i].agent, items[i].startedAt))
  }

  function DocumentRows(company: nat, items: seq<Document>): seq<DocumentRow> {
    seq(|items|, i requires 0 <= i < |items| =>
      var d := items[i];
      DocumentRow(KeyOf(company, d.id), d.id, d.slug, d.title, d.source, d.category, d.version))
  }

  function MessageRowOf(company: nat, m: Message): MessageRow {
    MessageRow(KeyOf(company, m.id), KeyOf(company, m.conversationId), m.role, m.agent, m.skill, m.createdAt)
  }

  /** The rows of the first n messages. */
  function MessageRows(company: nat, data: Data, n: nat): seq<MessageRow>
    requires n <= |data.messages|
  {
    if n == 0 then [] else
      MessageRows(company, data, n - 1) +
      if HasConversation(data.conversations, data.messages[n - 1].conversationId)
      then [MessageRowOf(company, data.messages[n - 1])] else []
  }

  /** An id some message of a known conversation has. */
  predicate ValidMessage(data: Data, id: string) {
    exists i :: 0 <= i < |data.messages| && data.messages[i].id == id
             && HasConversation(data.conversations, data.messages[i].conversationId)
  }

  predicate Kept(data: Data, c: Chunk) {
    HasDocument(data.documents, c.documentId) && c.number.Some?
  }

  function ChunkRows(company: nat, data: Data, n: nat): seq<ChunkRow>
    requires n <= |data.chunks|
  {
    if n == 0 then [] else
      var c := data.chunks[n - 1];
      ChunkRows(company, data, n - 1) +
      if Kept(data, c)
      then [ChunkRow(ChunkKey(company, c.documentId, c.number.value), KeyOf(company, c.documentId), c.number.value)] else []
  }

  predicate Available(data: Data, id: string, number: int) {
    exists i :: 0 <= i < |data.chunks| && Kept(data, data.chunks[i])
             && data.chunks[i].documentId == id && data.chunks[i].number == Some(number)
  }

  /** The citation a source becomes; None when it is skipped. */
  function CitationOf(company: nat, data: Data, messageId: string, s: Source): Option<CitationRow>
    requires s.Rag?
  {
    match ParseRef(s.ref)
    case Some((id, number)) =>
      if HasDocument(data.documents, id) && Available(data, id, number)
      then Some(CitationRow(KeyOf(company, messageId), ChunkKey(company, id, number), s.score)) else None
    case None => None
  }

  /** The citations of a message's first n sources. */
  function SourceCitations(company: nat, data: Data, m: Message, n: nat): seq<CitationRow>
    requires n <= |m.sources|
  {
    if n == 0 then [] else
      var s := m.sources[n - 1];
      SourceCitations(company, data, m, n - 1) +
      if s.Rag? && CitationOf(company, data, m.id, s).Some? then [CitationOf(company, data, m.id, s).value] else []
  }

  predicate Cites(data: Data, m: Message) {
    m.role == "assistant" && ValidMessage(data, m.id)
  }

  function Citations(company: nat, data: Data, n: nat): seq<CitationRow>
    requires n <= |data.messages|
  {
    if n == 0 then [] else
      var m := data.messages[n - 1];
      Citations(company, data, n - 1) + if Cites(data, m) then SourceCitations(company, data, m, |m.sources|) else []
  }

  /** How many sources are RAG sources. */
  function RagCount(sources: seq<Source>): nat {
    if sources == [] then 0 else RagCount(sources[..|sources| - 1]) + if sources[|sources| - 1].Rag? then 1 else 0
  }

  /** RAG sources on the valid assistant messages among the first n. */
  function RagTotal(data: Data, n: nat): nat
    requires n <= |data.messages|
  {
    if n == 0 then 0 else
      RagTotal(data, n - 1) + if Cites(data, data.messages[n - 1]) then RagCount(data.messages[n - 1].sources) else 0
  }

  method BuildGraphRows(company: nat, data: Data) returns (rows: Rows)
    ensures rows.company == company
    ensures rows.conversations == ConversationRows(company, ById(data.conversations))
    ensures rows.messages == MessageRows(company, data, |data.messages|)
    ensures rows.documents == DocumentRows(company, data.documents)
    ensures rows.chunks == ChunkRows(company, data, |data.chunks|)
    ensures rows.citations == Citations(company, data, |data.messages|)
    ensures |rows.citations| + rows.skipped == RagTotal(data, |data.messages|)
  {
    var messages, validIds := CollectMessages(company, data);
    var chunkRows, available := CollectChunks(company, data);
    var citations, skipped := CollectCitations(company, data, validIds, available);
    rows := Rows(company, ConversationRows(company, ById(data.conversations)), messages,
                 DocumentRows(company, data.documents), chunkRows, citations, skipped);
  }

  method CollectMessages(company: nat, data: Data) returns (messages: seq<MessageRow>, validIds: set<string>)
    ensures messages == MessageRows(company, data, |data.messages|)
    ensures forall id :: id in validIds <==> ValidMessage(data, id)
  {
    messages, validIds := [], {};
    for i := 0 to |data.messages|
      invariant messages == MessageRows(company, data, i)
      invariant forall id :: id in validIds <==>
                  exists k :: 0 <= k < i && data.messages[k].id == id
                           && HasConversation(data.conversations, data.messages[k].conversationId)
    {
      hide HasConversation, MessageRowOf;
      var m := data.messages[i];
      if HasConversation(data.conversations, m.conversationId) {
        validIds := validIds + {m.id};
        messages := messages + [MessageRowOf(company, m)];
      }
    }
  }

  method CollectChunks(company: nat, data: Data) returns (chunkRows: seq<ChunkRow>, available: set<(string, int)>)
    ensures chunkRows == ChunkRows(company, data, |data.chunks|)
    ensures forall id, number :: (id, number) in available <==> Available(data, id, number)
  {
    chunkRows, available := [], {};
    for i := 0 to |data.chunks|
      invariant chunkRows == ChunkRows(company, data, i)
      invariant forall id, number :: (id, number) in available <==>
                  exists k :: 0 <= k < i && Kept(data, data.chunks[k])
                           && data.chunks[k].documentId == id && data.chunks[k].number == Some(number)
    {
      hide HasDocument, ChunkKey, KeyOf;
      var c := data.chunks[i];
      if HasDocument(data.documents, c.documentId) && c.number.Some? {
        available := available + {(c.documentId, c.number.value)};
        chunkRows := chunkRows +
          [ChunkRow(ChunkKey(company, c.documentId, c.number.value), KeyOf(company, c.documentId), c.number.value)];
      }
    }
  }

  method CollectCitations(company: nat, data: Data, validIds: set<string>, available: set<(string, int)>)
    returns (citations: seq<CitationRow>, skipped: nat)
    requires forall id :: id in validIds <==> ValidMessage(data, id)
    requires forall id, number :: (id, number) in available <==> Available(data, id, number)
    ensures citations == Citations(company, data, |data.messages|)
    ensures |citations| + skipped == RagTotal(data, |data.messages|)
  {
    citations, skipped := [], 0;
    hide ValidMessage, Available;
    for i := 0 to |data.messages|
      invariant citations == Citations(company, data, i)
      invariant |citations| + skipped == RagTotal(data, i)
    {
      var m := data.messages[i];
      if m.role == "assistant" && m.id in validIds {
        var more, missed := CollectSources(company, data, m, available);
        citations, skipped := citations + more, skipped + missed;
      }
    }
  }

  lemma RagCountStep(sources: seq<Source>, j: nat)
    requires j < |sources|
    ensures RagCount(sources[..j + 1]) == RagCount(sources[..j]) + if sources[j].Rag? then 1 else 0
  {
    assert sources[..j + 1][..j] == sources[..j];
  }

  method CollectSources(company: nat, data: Data, m: Message, available: set<(string, int)>)
    returns (citations: seq<CitationRow>, skipped: nat)
    requires forall id, number :: (id, number) in available <==> Available(data, id, number)
    ensures citations == SourceCitations(company, data, m, |m.sources|)
    ensures |citations| + skipped == RagCount(m.sources)
  {
    citations, skipped := [], 0;
    hide Available, ParseRef, HasDocument, ChunkKey, KeyOf, RagCount;
    assert m.sources[..0] == [] && RagCount([]) == 0;
    for j := 0 to |m.sources|
      invariant citations == SourceCitations(company, data, m, j)
      invariant |citations| + skipped == RagCount(m.sources[..j])
    {
      var s := m.sources[j];
      RagCountStep(m.sources, j);
      if s.Rag? {
        var parsed := ParseRef(s.ref);
        if parsed.None? {
          skipped := skipped + 1;
        } else {
          var (id, number) := parsed.value;
          if !HasDocument(data.documents, id) || (id, number) !in available {
            skipped := skipped + 1;
          } else {
            citations := citations + [CitationRow(KeyOf(company, m.id), ChunkKey(company, id, number), s.score)];
          }
        }
      }
    }
    assert m.sources[..|m.sources|] == m.sources;
  }

  // ---- Referential integrity ----

  lemma {:induction false} MessageRowsOrigin(company: nat, data: Data, n: nat, i: nat)
    requires n <= |data.messages| && i < |MessageRows(company, data, n)|
    ensures exists k :: 0 <= k < n && HasConversation(data.conversations, data.messages[k].conversationId)
                     && MessageRows(company, data, n)[i] == MessageRowOf(company, data.messages[k])
  {
    var before := MessageRows(company, data, n - 1);
    if i < |before| {
      MessageRowsOrigin(company, data, n - 1, i);
    } else {
      assert MessageRows(company, data, n)[i] == MessageRowOf(company, data.messages[n - 1]);
    }
  }

  lemma {:induction false} MessageRowsHave(company: nat, data: Data, n: nat, k: nat)
    requires k < n <= |data.messages| && HasConversation(data.conversations, data.messages[k].conversationId)
    ensures MessageRowOf(company, data.messages[k]) in MessageRows(company, data, n)
  {
    if k < n - 1 {
      MessageRowsHave(company, data, n - 1, k);
    }
  }

  lemma {:induction false} ChunkRowsHave(company: nat, data: Data, n: nat, k: nat)
    requires k < n <= |data.chunks| && Kept(data, data.chunks[k])
    ensures var c := data.chunks[k];
            ChunkRow(ChunkKey(company, c.documentId, c.number.value), KeyOf(company, c.documentId), c.number.value)
              in ChunkRows(company, data, n)
  {
    hide Kept, ChunkKey, KeyOf;
    if k < n - 1 {
      ChunkRowsHave(company, data, n - 1, k);
    }
  }

  lemma {:induction false} ChunkRowsOrigin(company: nat, data: Data, n: nat, i: nat)
    requires n <= |data.chunks| && i < |ChunkRows(company, data, n)|
    ensures exists k :: 0 <= k < n && Kept(data, data.chunks[k])
                     && ChunkRows(company, data, n)[i].documentKey == KeyOf(company, data.chunks[k].documentId)
                     && ChunkRows(company, data, n)[i].key
                        == ChunkKey(company, data.chunks[k].documentId, data.chunks[k].number.value)
  {
    var before := ChunkRows(company, data, n - 1);
    if i < |before| {
      ChunkRowsOrigin(company, data, n - 1, i);
    } else {
      assert Kept(data, data.chunks[n - 1]);
    }
  }

  ghost predicate CitesChunk(company: nat, data: Data, c: CitationRow, id: string, number: int) {
    HasDocument(data.documents, id) && Available(data, id, number) && c.chunkKey == ChunkKey(company, id, number)
  }

  lemma {:induction false} SourceOrigin(company: nat, data: Data, m: Message, n: nat, i: nat)
    requires n <= |m.sources| && i < |SourceCitations(company, data, m, n)|
    ensures SourceCitations(company, data, m, n)[i].messageKey == KeyOf(company, m.id)
    ensures exists id, number :: CitesChunk(company, data, SourceCitations(company, data, m, n)[i], id, number)
  {
    var before := SourceCitations(company, data, m, n - 1);
    if i < |before| {
      SourceOrigin(company, data, m, n - 1, i);
    } else {
      var (id, number) := ParseRef(m.sources[n - 1].ref).value;
      assert CitesChunk(company, data, SourceCitations(company, data, m, n)[i], id, number);
    }
  }

  ghost predicate CitedBy(company: nat, data: Data, c: CitationRow, k: nat) {
    k < |data.messages| && ValidMessage(data, data.messages[k].id) && c.messageKey == KeyOf(company, data.messages[k].id)
  }

  ghost predicate HasOrigin(company: nat, data: Data, c: CitationRow) {
    && (exists k: nat :: CitedBy(company, data, c, k))
    && (exists id, number :: CitesChunk(company, data, c, id, number))
  }

  /** The citations of the n-th message have an origin. */
  lemma OneMessageOrigin(company: nat, data: Data, k: nat, i: nat)
    requires k < |data.messages| && Cites(data, data.messages[k])
    requires i < |SourceCitations(company, data, data.messages[k], |data.messages[k].sources|)|
    ensures HasOrigin(company, data, SourceCitations(company, data, data.messages[k], |data.messages[k].sources|)[i])
  {
    var m := data.messages[k];
    hide SourceCitations, CitesChunk;
    SourceOrigin(company, data, m, |m.sources|, i);
    assert CitedBy(company, data, SourceCitations(company, data, m, |m.sources|)[i], k);
  }

  lemma {:induction false} CitationOrigin(company: nat, data: Data, n: nat, i: nat)
    requires n <= |data.messages| && i < |Citations(company, data, n)|
    ensures HasOrigin(company, data, Citations(company, data, n)[i])
  {
    hide SourceCitations, HasOrigin, Cites;
    var before := Citations(company, data, n - 1);
    if i < |before| {
      CitationOrigin(company, data, n - 1, i);
      assert Citations(company, data, n)[i] == before[i];
    } else {
      OneMessageOrigin(company, data, n - 1, i - |before|);
    }
  }

  lemma {:induction false} ByIdIds(items: seq<Conversation>, id: string)
    ensures HasConversation(ById(items), id) <==> HasConversation(items, id)
    ensures forall i, j | 0 <= i < j < |ById(items)| :: ById(items)[i].id != ById(items)[j].id
  {
    if items != [] {
      var last, rest := items[|items| - 1], ById(items[..|items| - 1]);
      ByIdIds(items[..|items| - 1], id);
      ByIdIds(items[..|items| - 1], last.id);
      assert HasConversation(items, id) <==> HasConversation(items[..|items| - 1], id) || last.id == id;
      var all := ById(items);
      if HasConversation(rest, last.id) {
        assert forall i | 0 <= i < |rest| :: all[i].id == rest[i].id;
        assert HasConversation(all, id) <==> HasConversation(rest, id);
      } else {
        assert all[|rest|] == last && all == rest + [last];
        assert forall i | 0 <= i < |rest| :: all[i] == rest[i];
        assert HasConversation(all, id) <==> HasConversation(rest, id) || last.id == id;
      }
    }
  }

  ghost predicate MessageLinked(rows: Rows, i: nat)
    requires i < |rows.messages|
  {
    exists c :: c in rows.conversations && c.key == rows.messages[i].conversationKey
  }

  ghost predicate ChunkLinked(rows: Rows, i: nat)
    requires i < |rows.chunks|
  {
    exists d :: d in rows.documents && d.key == rows.chunks[i].documentKey
  }

  ghost predicate CitationLinked(rows: Rows, i: nat)
    requires i < |rows.citations|
  {
    && (exists m :: m in rows.messages && m.key == rows.citations[i].messageKey)
    && (exists c :: c in rows.chunks && c.key == rows.citations[i].chunkKey)
  }

  /** The rows a company's data becomes. */
  ghost predicate RowsOf(company: nat, data: Data, rows: Rows) {
    && rows.company == company
    && rows.conversations == ConversationRows(company, ById(data.conversations))
    && rows.messages == MessageRows(company, data, |data.messages|)
    && rows.documents == DocumentRows(company, data.documents)
    && rows.chunks == ChunkRows(company, data, |data.chunks|)
    && rows.citations == Citations(company, data, |data.messages|)
  }

  lemma MessageRowLinked(company: nat, data: Data, rows: Rows, i: nat)
    requires RowsOf(company, data, rows) && i < |rows.messages|
    ensures MessageLinked(rows, i)
  {
    MessageRowsOrigin(company, data, |data.messages|, i);
    var k :| 0 <= k < |data.messages| && HasConversation(data.conversations, data.messages[k].conversationId)
          && rows.messages[i] == MessageRowOf(company, data.messages[k]);
    ByIdIds(data.conversations, data.messages[k].conversationId);
    var c :| 0 <= c < |ById(data.conversations)| && ById(data.conversations)[c].id == data.messages[k].conversationId;
    assert rows.conversations[c].key == rows.messages[i].conversationKey;
  }

  lemma DocumentRowExists(company: nat, data: Data, rows: Rows, id: string)
    requires RowsOf(company, data, rows) && HasDocument(data.documents, id)
    ensures exists d :: d in rows.documents && d.key == KeyOf(company, id)
  {
    var i :| 0 <= i < |data.documents| && data.documents[i].id == id;
    assert rows.documents[i].key == KeyOf(company, id);
  }

  /** Every citation row has a message row and a chunk row, every message row a
      conversation row, every chunk row a document row; for any input collections. */
  lemma {:induction false} RowsAreLinked(company: nat, data: Data, rows: Rows)
    requires RowsOf(company, data, rows)
    ensures forall i | 0 <= i < |rows.messages| :: MessageLinked(rows, i)
    ensures forall i | 0 <= i < |rows.chunks| :: ChunkLinked(rows, i)
    ensures forall i | 0 <= i < |rows.citations| :: CitationLinked(rows, i)
  {
    forall i | 0 <= i < |rows.messages| ensures MessageLinked(rows, i) {
      MessageRowLinked(company, data, rows, i);
    }
    forall i | 0 <= i < |rows.chunks| ensures ChunkLinked(rows, i) {
      ChunkRowsOrigin(company, data, |data.chunks|, i);
      var k :| 0 <= k < |data.chunks| && Kept(data, data.chunks[k])
            && rows.chunks[i].documentKey == KeyOf(company, data.chunks[k].documentId);
      DocumentRowExists(company, data, rows, data.chunks[k].documentId);
    }
    forall i | 0 <= i < |rows.citations| ensures CitationLinked(rows, i) {
      CitationRowLinked(company, data, rows, i);
    }
  }

  lemma CitationRowLinked(company: nat, data: Data, rows: Rows, i: nat)
    requires RowsOf(company, data, rows) && i < |rows.citations|
    ensures CitationLinked(rows, i)
  {
    CitationOrigin(company, data, |data.messages|, i);
    var k: nat :| CitedBy(company, data, rows.citations[i], k);
    var id, number :| CitesChunk(company, data, rows.citations[i], id, number);
    var v :| 0 <= v < |data.messages| && data.messages[v].id == data.messages[k].id
          && HasConversation(data.conversations, data.messages[v].conversationId);
    MessageRowsHave(company, data, |data.messages|, v);
    var c :| 0 <= c < |data.chunks| && Kept(data, data.chunks[c])
          && data.chunks[c].documentId == id && data.chunks[c].number == Some(number);
    ChunkRowsHave(company, data, |data.chunks|, c);
  }
}
