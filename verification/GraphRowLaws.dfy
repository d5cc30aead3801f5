/** What the rows of the tenant graph are, in terms of the collections alone (scripts/sync_neo4j_rag.py). */
module GraphRowLaws {
  import opened Characters
  import opened Wrappers
  import opened Numerals
  import opened GraphRows
  import opened Selections

  // ---- The citation reference ----

  /** "doc:", 24 hexadecimal digits, white space, "chunk:", digits. */
  predicate RefText(ref: string, hex: string, spaces: string, digits: string) {
    && ref == "doc:" + hex + spaces + "chunk:" + digits
    && |hex| == 24 && (forall i | 0 <= i < 24 :: '0' <= hex[i] <= '9' || 'a' <= hex[i] <= 'f' || 'A' <= hex[i] <= 'F')
    && spaces != "" && (forall i | 0 <= i < |spaces| :: IsSpace(spaces[i]))
    && digits != "" && AllDigits(digits)
  }

  /** The id in lower case. */
  function Lowered(hex: string): string {
    seq(|hex|, i requires 0 <= i < |hex| => if 'A' <= hex[i] <= 'Z' then 'a' + (hex[i] - 'A') else hex[i])
  }

  lemma {:induction false} SkipSpaceIs(spaces: string, rest: string)
    requires (forall i | 0 <= i < |spaces| :: IsSpace(spaces[i])) && (rest == "" || !IsSpace(rest[0]))
    ensures SkipSpace(spaces + rest) == rest
  {
    if spaces == "" {
      assert spaces + rest == rest;
    } else {
      assert (spaces + rest)[1..] == spaces[1..] + rest;
      SkipSpaceIs(spaces[1..], rest);
    }
  }

  lemma {:induction false} SkippedSpace(s: string) returns (spaces: string)
    ensures s == spaces + SkipSpace(s) && forall i | 0 <= i < |spaces| :: IsSpace(spaces[i])
  {
    if s != "" && IsSpace(s[0]) {
      var more := SkippedSpace(s[1..]);
      spaces := [s[0]] + more;
      assert s == [s[0]] + s[1..];
    } else {
      spaces := "";
      assert s == "" + s;
    }
  }

  lemma LoweredIs(hex: string)
    requires |hex| == 24
    ensures LowerText(hex) == Lowered(hex)
  {
  }

  /** A text of that form is read as its id in lower case and its number. */
  lemma {:induction false} RefTextParses(ref: string, hex: string, spaces: string, digits: string)
    requires RefText(ref, hex, spaces, digits)
    ensures ParseRef(ref) == Some((Lowered(hex), Value(digits)))
  {
    var tail := "chunk:" + digits;
    assert ref == "doc:" + (hex + (spaces + tail));
    assert ref[..4] == "doc:" && ref[4..28] == hex && ref[28..] == spaces + tail;
    assert forall i | 4 <= i < 28 :: ref[i] == hex[i - 4];
    assert ref[28] == spaces[0];
    SkipSpaceIs(spaces, tail);
    assert tail[..6] == "chunk:" && tail[6..] == digits;
    LoweredIs(hex);
  }

  /** And only such texts are read. */
  lemma {:induction false} ParsedIsRefText(ref: string) returns (hex: string, spaces: string, digits: string)
    requires ParseRef(ref).Some?
    ensures RefText(ref, hex, spaces, digits)
  {
    hex := ref[4..28];
    spaces := SkippedSpace(ref[28..]);
    var rest := SkipSpace(ref[28..]);
    digits := rest[6..];
    assert forall i | 0 <= i < 24 :: hex[i] == ref[i + 4];
    assert rest == "chunk:" + digits;
    assert ref == ref[..4] + (hex + ref[28..]);
    assert ref[28..][0] == ref[28];
  }

  // ---- Which sources are cited ----

  /** Of a message that names a conversation there is. */
  ghost predicate Known(data: Data, m: Message) {
    exists c :: c in data.conversations && c.id == m.conversationId
  }

  /** An assistant's message whose id is that of a message of a known conversation. */
  ghost predicate Answering(data: Data, m: Message) {
    m.role == "assistant" && exists v :: v in data.messages && v.id == m.id && Known(data, v)
  }

  /** A RAG source of one of those messages. */
  datatype Cited = Cited(messageId: string, source: Source)

  function RagOf(m: Message, n: nat): seq<Cited>
    requires n <= |m.sources|
  {
    if n == 0 then [] else RagOf(m, n - 1) + if m.sources[n - 1].Rag? then [Cited(m.id, m.sources[n - 1])] else []
  }

  /** All RAG sources of the first n messages that are answering, in order. */
  ghost function AllRag(data: Data, n: nat): seq<Cited>
    requires n <= |data.messages|
  {
    if n == 0 then [] else
      AllRag(data, n - 1) + if Answering(data, data.messages[n - 1]) then RagOf(data.messages[n - 1], |data.messages[n - 1].sources|) else []
  }

  /** The source's reference names a document there is and a numbered chunk of it. */
  ghost predicate Refers(data: Data, s: Source, id: string, number: nat) {
    && s.Rag?
    && (exists hex, spaces, digits :: RefText(s.ref, hex, spaces, digits) && id == Lowered(hex) && number == Value(digits))
    && (exists d :: d in data.documents && d.id == id)
    && (exists c :: c in data.chunks && c.documentId == id && c.number == Some(number))
  }

  ghost predicate Citable(data: Data, s: Source) {
    exists id, number :: Refers(data, s, id, number)
  }

  /** The row for it. */
  ghost predicate RowFor(company: nat, data: Data, x: Cited, r: CitationRow) {
    exists id, number :: Refers(data, x.source, id, number)
      && r == CitationRow(Decimal(company) + ":" + x.messageId, Decimal(company) + ":" + id + ":" + Decimal(number), x.source.score)
  }

  lemma HasDocumentIs(data: Data, id: string)
    ensures HasDocument(data.documents, id) <==> exists d :: d in data.documents && d.id == id
  {
    if d :| d in data.documents && d.id == id {
      var i :| 0 <= i < |data.documents| && data.documents[i] == d;
    }
  }

  lemma AvailableIs(data: Data, id: string, number: int)
    requires HasDocument(data.documents, id)
    ensures Available(data, id, number) <==> exists c :: c in data.chunks && c.documentId == id && c.number == Some(number)
  {
    if c :| c in data.chunks && c.documentId == id && c.number == Some(number) {
      var i :| 0 <= i < |data.chunks| && data.chunks[i] == c;
      assert GraphRows.Kept(data, data.chunks[i]);
    }
    if Available(data, id, number) {
      var i :| 0 <= i < |data.chunks| && GraphRows.Kept(data, data.chunks[i])
            && data.chunks[i].documentId == id && data.chunks[i].number == Some(number);
      assert data.chunks[i] in data.chunks;
    }
  }

  lemma ConversationIs(data: Data, m: Message)
    ensures HasConversation(data.conversations, m.conversationId) <==> Known(data, m)
  {
    if c :| c in data.conversations && c.id == m.conversationId {
      var i :| 0 <= i < |data.conversations| && data.conversations[i] == c;
    }
  }

  lemma CitesIs(data: Data, m: Message)
    ensures Cites(data, m) <==> Answering(data, m)
  {
    if Cites(data, m) {
      var i :| 0 <= i < |data.messages| && data.messages[i].id == m.id && HasConversation(data.conversations, data.messages[i].conversationId);
      ConversationIs(data, data.messages[i]);
      assert data.messages[i] in data.messages;
    }
    if Answering(data, m) {
      var v :| v in data.messages && v.id == m.id && Known(data, v);
      ConversationIs(data, v);
      var i :| 0 <= i < |data.messages| && data.messages[i] == v;
    }
  }

  /** A source becomes a citation exactly when its reference names a document and one of its chunks. */
  lemma CitationIs(company: nat, data: Data, x: Cited)
    requires x.source.Rag?
    ensures var r := CitationOf(company, data, x.messageId, x.source);
            if Citable(data, x.source) then r.Some? && RowFor(company, data, x, r.value) else r.None?
  {
    var parsed := ParseRef(x.source.ref);
    if parsed.Some? {
      var hex, spaces, digits := ParsedIsRefText(x.source.ref);
      RefTextParses(x.source.ref, hex, spaces, digits);
      var id, number := Lowered(hex), Value(digits);
      HasDocumentIs(data, id);
      if HasDocument(data.documents, id) {
        AvailableIs(data, id, number);
      }
      CitableIs(company, data, x, id, number);
    } else if Citable(data, x.source) {
      var id, number :| Refers(data, x.source, id, number);
      var hex, spaces, digits :| RefText(x.source.ref, hex, spaces, digits) && id == Lowered(hex) && number == Value(digits);
      RefTextParses(x.source.ref, hex, spaces, digits);
    }
  }

  lemma CitableIs(company: nat, data: Data, x: Cited, id: string, number: nat)
    requires x.source.Rag? && ParseRef(x.source.ref) == Some((id, number))
    requires exists hex, spaces, digits :: RefText(x.source.ref, hex, spaces, digits) && id == Lowered(hex) && number == Value(digits)
    ensures Citable(data, x.source) <==> Refers(data, x.source, id, number)
  {
    forall other, n | Refers(data, x.source, other, n) ensures other == id && n == number {
      var hex, spaces, digits :| RefText(x.source.ref, hex, spaces, digits) && other == Lowered(hex) && n == Value(digits);
      RefTextParses(x.source.ref, hex, spaces, digits);
    }
  }

  // ---- The citations, one by one ----

  function RowsOfRag(company: nat, data: Data, xs: seq<Cited>): seq<CitationRow>
    requires forall i | 0 <= i < |xs| :: xs[i].source.Rag?
  {
    if xs == [] then [] else
      var x := xs[|xs| - 1];
      RowsOfRag(company, data, xs[..|xs| - 1]) +
      if CitationOf(company, data, x.messageId, x.source).Some? then [CitationOf(company, data, x.messageId, x.source).value] else []
  }

  lemma {:induction false} RowsOfRagConcat(company: nat, data: Data, a: seq<Cited>, b: seq<Cited>)
    requires forall i | 0 <= i < |a| :: a[i].source.Rag?
    requires forall i | 0 <= i < |b| :: b[i].source.Rag?
    ensures RowsOfRag(company, data, a + b) == RowsOfRag(company, data, a) + RowsOfRag(company, data, b)
  {
    hide CitationOf;
    if b == [] {
      assert a + b == a;
      assert RowsOfRag(company, data, a) + [] == RowsOfRag(company, data, a);
    } else {
      assert (a + b)[..|a + b| - 1] == a + b[..|b| - 1];
      RowsOfRagConcat(company, data, a, b[..|b| - 1]);
    }
  }

  lemma {:induction false} RagOfMessage(company: nat, data: Data, m: Message, n: nat)
    requires n <= |m.sources|
    ensures forall i | 0 <= i < |RagOf(m, n)| :: RagOf(m, n)[i].source.Rag?
    ensures SourceCitations(company, data, m, n) == RowsOfRag(company, data, RagOf(m, n))
    ensures |RagOf(m, n)| == RagCount(m.sources[..n])
  {
    hide CitationOf;
    if n > 0 {
      RagOfMessage(company, data, m, n - 1);
      RagCountStep(m.sources, n - 1);
      var front := RagOf(m, n - 1);
      if m.sources[n - 1].Rag? {
        assert (front + [Cited(m.id, m.sources[n - 1])])[..|front|] == front;
      } else {
        assert front + [] == front;
        assert SourceCitations(company, data, m, n - 1) + [] == SourceCitations(company, data, m, n - 1);
      }
    } else {
      assert m.sources[..0] == [];
    }
  }

  lemma {:induction false} AllRagCited(company: nat, data: Data, n: nat)
    requires n <= |data.messages|
    ensures forall i | 0 <= i < |AllRag(data, n)| :: AllRag(data, n)[i].source.Rag?
    ensures Citations(company, data, n) == RowsOfRag(company, data, AllRag(data, n))
    ensures |AllRag(data, n)| == RagTotal(data, n)
  {
    if n > 0 {
      AllRagCited(company, data, n - 1);
      NextCited(company, data, n);
      hide *;
      if Answering(data, data.messages[n - 1]) {
        RowsOfRagConcat(company, data, AllRag(data, n - 1), RagOf(data.messages[n - 1], |data.messages[n - 1].sources|));
      }
    }
  }

  /** What one more message adds, to all four at once. */
  lemma NextCited(company: nat, data: Data, n: nat)
    requires 0 < n <= |data.messages|
    ensures var m := data.messages[n - 1]; var more := RagOf(m, |m.sources|);
            && (forall i | 0 <= i < |more| :: more[i].source.Rag?)
            && if Answering(data, m) then
                 && AllRag(data, n) == AllRag(data, n - 1) + more
                 && Citations(company, data, n) == Citations(company, data, n - 1) + RowsOfRag(company, data, more)
                 && RagTotal(data, n) == RagTotal(data, n - 1) + |more|
               else
                 && AllRag(data, n) == AllRag(data, n - 1)
                 && Citations(company, data, n) == Citations(company, data, n - 1)
                 && RagTotal(data, n) == RagTotal(data, n - 1)
  {
    var m := data.messages[n - 1];
    CitesIs(data, m);
    RagOfMessage(company, data, m, |m.sources|);
    assert m.sources[..|m.sources|] == m.sources;
    assert AllRag(data, n - 1) + [] == AllRag(data, n - 1);
    assert Citations(company, data, n - 1) + [] == Citations(company, data, n - 1);
    hide Answering, Cites, RowsOfRag, RagOf, SourceCitations, RagCount;
  }

  ghost function CitablePlaces(data: Data, xs: seq<Cited>): iset<nat> {
    iset i: nat | i < |xs| && Citable(data, xs[i].source)
  }

  ghost function OtherPlaces(data: Data, xs: seq<Cited>): iset<nat> {
    iset i: nat | i < |xs| && !Citable(data, xs[i].source)
  }

  /** One row for each of these places. */
  ghost predicate RowsFor(company: nat, data: Data, xs: seq<Cited>, at: seq<nat>, rows: seq<CitationRow>) {
    && |rows| == |at|
    && forall j | 0 <= j < |at| :: at[j] < |xs| && RowFor(company, data, xs[at[j]], rows[j])
  }

  lemma RowsForMore(company: nat, data: Data, xs: seq<Cited>, at: seq<nat>, rows: seq<CitationRow>)
    requires xs != [] && RowsFor(company, data, xs[..|xs| - 1], at, rows)
    ensures RowsFor(company, data, xs, at, rows)
    ensures forall r | RowFor(company, data, xs[|xs| - 1], r) :: RowsFor(company, data, xs, at + [|xs| - 1], rows + [r])
  {
    hide RowFor;
    assert forall j | 0 <= j < |at| :: xs[..|xs| - 1][at[j]] == xs[at[j]];
  }

  lemma {:induction false} RagSelected(company: nat, data: Data, xs: seq<Cited>) returns (at: seq<nat>, rest: seq<nat>)
    requires forall i | 0 <= i < |xs| :: xs[i].source.Rag?
    ensures Selects(at, |xs|, CitablePlaces(data, xs)) && Selects(rest, |xs|, OtherPlaces(data, xs))
    ensures RowsFor(company, data, xs, at, RowsOfRag(company, data, xs))
    ensures |at| + |rest| == |xs|
  {
    if xs == [] {
      at, rest := [], [];
    } else {
      var n, front, x := |xs| - 1, xs[..|xs| - 1], xs[|xs| - 1];
      at, rest := RagSelected(company, data, front);
      CitationIs(company, data, x);
      RowsForMore(company, data, xs, at, RowsOfRag(company, data, front));
      PlacesOfFront(data, xs);
      var rows := RowsOfRag(company, data, front);
      assert rows + [] == rows;
      assert RowsOfRag(company, data, xs) == rows + if CitationOf(company, data, x.messageId, x.source).Some? then [CitationOf(company, data, x.messageId, x.source).value] else [];
      hide CitationOf, Citable, RowFor, Selects, RowsFor, CitablePlaces, OtherPlaces, RowsOfRag;
      SelectSame(at, n, CitablePlaces(data, front), CitablePlaces(data, xs));
      SelectSame(rest, n, OtherPlaces(data, front), OtherPlaces(data, xs));
      at := SelectNext(at, n, CitablePlaces(data, xs));
      rest := SelectNext(rest, n, OtherPlaces(data, xs));
    }
  }

  lemma PlacesOfFront(data: Data, xs: seq<Cited>)
    requires xs != []
    ensures forall i: nat | i < |xs| - 1 :: i in CitablePlaces(data, xs[..|xs| - 1]) <==> i in CitablePlaces(data, xs)
    ensures forall i: nat | i < |xs| - 1 :: i in OtherPlaces(data, xs[..|xs| - 1]) <==> i in OtherPlaces(data, xs)
    ensures |xs| - 1 in CitablePlaces(data, xs) <==> Citable(data, xs[|xs| - 1].source)
    ensures |xs| - 1 in OtherPlaces(data, xs) <==> !Citable(data, xs[|xs| - 1].source)
  {
    hide Citable;
  }

  /** Exactly one citation row for every RAG source of an answering message that names a document and one of
      its numbered chunks, in order, with its message's key, its chunk's key and its score; skipped counts
      exactly the other RAG sources. */
  lemma {:induction false} CitationsAre(company: nat, data: Data, rows: Rows) returns (at: seq<nat>, rest: seq<nat>)
    requires rows.citations == Citations(company, data, |data.messages|)
    requires |rows.citations| + rows.skipped == RagTotal(data, |data.messages|)
    ensures var xs := AllRag(data, |data.messages|);
            && Selects(at, |xs|, CitablePlaces(data, xs)) && Selects(rest, |xs|, OtherPlaces(data, xs))
            && RowsFor(company, data, xs, at, rows.citations)
            && rows.skipped == |rest|
  {
    AllRagCited(company, data, |data.messages|);
    at, rest := RagSelected(company, data, AllRag(data, |data.messages|));
  }

  // ---- The other rows ----

  function MessagePlaces(data: Data): iset<nat> {
    iset i: nat | i < |data.messages| && HasConversation(data.conversations, data.messages[i].conversationId)
  }

  ghost function KnownPlaces(data: Data): iset<nat> {
    iset i: nat | i < |data.messages| && Known(data, data.messages[i])
  }

  /** The row of a message, field by field. */
  predicate MessageRowFor(company: nat, m: Message, r: MessageRow) {
    && r.key == Decimal(company) + ":" + m.id && r.conversationKey == Decimal(company) + ":" + m.conversationId
    && r.role == m.role && r.agent == m.agent && r.skill == m.skill && r.createdAt == m.createdAt
  }

  ghost predicate MessageRowsFor(company: nat, data: Data, at: seq<nat>, rows: seq<MessageRow>) {
    && |rows| == |at|
    && forall j | 0 <= j < |at| :: at[j] < |data.messages| && MessageRowFor(company, data.messages[at[j]], rows[j])
  }

  lemma {:induction false} MessagesSelected(company: nat, data: Data, n: nat) returns (at: seq<nat>)
    requires n <= |data.messages|
    ensures Selects(at, n, MessagePlaces(data)) && MessageRowsFor(company, data, at, MessageRows(company, data, n))
  {
    NoRowsYet(company, data);
    hide *;
    if n == 0 {
      at := [];
      SelectNone(MessagePlaces(data));
    } else {
      var before := MessagesSelected(company, data, n - 1);
      NextMessage(company, data, n, before);
      at := SelectNext(before, n - 1, MessagePlaces(data));
    }
  }

  lemma NoRowsYet(company: nat, data: Data)
    ensures MessageRowsFor(company, data, [], MessageRows(company, data, 0))
    ensures ChunkRowsFor(company, data, [], ChunkRows(company, data, 0))
  {
  }

  lemma NextMessage(company: nat, data: Data, n: nat, at: seq<nat>)
    requires 0 < n <= |data.messages| && MessageRowsFor(company, data, at, MessageRows(company, data, n - 1))
    ensures MessageRowsFor(company, data, if n - 1 in MessagePlaces(data) then at + [n - 1] else at, MessageRows(company, data, n))
  {
    var rows, m := MessageRows(company, data, n - 1), data.messages[n - 1];
    assert rows + [] == rows;
    assert MessageRowFor(company, m, MessageRowOf(company, m));
    hide MessageRowFor, HasConversation, MessageRowOf;
  }

  /** One row for every message of a known conversation, in order, with its own fields. */
  lemma {:induction false} MessagesAre(company: nat, data: Data, rows: Rows) returns (at: seq<nat>)
    requires rows.messages == MessageRows(company, data, |data.messages|)
    ensures Selects(at, |data.messages|, KnownPlaces(data)) && MessageRowsFor(company, data, at, rows.messages)
  {
    at := MessagesSelected(company, data, |data.messages|);
    forall i: nat | i < |data.messages| ensures i in MessagePlaces(data) <==> i in KnownPlaces(data) {
      ConversationIs(data, data.messages[i]);
    }
    SelectSame(at, |data.messages|, MessagePlaces(data), KnownPlaces(data));
  }

  /** An integer-numbered chunk of a document there is. */
  ghost predicate Numbered(data: Data, c: Chunk) {
    c.number.Some? && exists d :: d in data.documents && d.id == c.documentId
  }

  ghost function NumberedPlaces(data: Data): iset<nat> {
    iset i: nat | i < |data.chunks| && Numbered(data, data.chunks[i])
  }

  function ChunkPlaces(data: Data): iset<nat> {
    iset i: nat | i < |data.chunks| && GraphRows.Kept(data, data.chunks[i])
  }

  predicate ChunkRowFor(company: nat, c: Chunk, r: ChunkRow) {
    && c.number == Some(r.number) && r.documentKey == Decimal(company) + ":" + c.documentId
    && r.key == Decimal(company) + ":" + c.documentId + ":" + IntText(r.number)
  }

  ghost predicate ChunkRowsFor(company: nat, data: Data, at: seq<nat>, rows: seq<ChunkRow>) {
    && |rows| == |at|
    && forall j | 0 <= j < |at| :: at[j] < |data.chunks| && ChunkRowFor(company, data.chunks[at[j]], rows[j])
  }

  lemma ChunkRowIs(company: nat, c: Chunk)
    requires c.number.Some?
    ensures ChunkRowFor(company, c,
              ChunkRow(ChunkKey(company, c.documentId, c.number.value), KeyOf(company, c.documentId), c.number.value))
  {
    Assoc(Decimal(company) + ":", c.documentId, ":" + IntText(c.number.value));
    assert Decimal(company) + ":" + c.documentId + ":" + IntText(c.number.value)
        == (Decimal(company) + ":" + c.documentId) + (":" + IntText(c.number.value));
    assert c.documentId + ":" + IntText(c.number.value) == c.documentId + (":" + IntText(c.number.value));
  }

  lemma {:induction false} ChunksSelected(company: nat, data: Data, n: nat) returns (at: seq<nat>)
    requires n <= |data.chunks|
    ensures Selects(at, n, ChunkPlaces(data)) && ChunkRowsFor(company, data, at, ChunkRows(company, data, n))
  {
    NoRowsYet(company, data);
    hide *;
    if n == 0 {
      at := [];
      SelectNone(ChunkPlaces(data));
    } else {
      var before := ChunksSelected(company, data, n - 1);
      NextChunk(company, data, n, before);
      at := SelectNext(before, n - 1, ChunkPlaces(data));
    }
  }

  lemma NextChunk(company: nat, data: Data, n: nat, at: seq<nat>)
    requires 0 < n <= |data.chunks| && ChunkRowsFor(company, data, at, ChunkRows(company, data, n - 1))
    ensures ChunkRowsFor(company, data, if n - 1 in ChunkPlaces(data) then at + [n - 1] else at, ChunkRows(company, data, n))
  {
    var rows, c := ChunkRows(company, data, n - 1), data.chunks[n - 1];
    assert rows + [] == rows;
    if GraphRows.Kept(data, c) {
      ChunkRowIs(company, c);
    }
    hide ChunkRowFor, GraphRows.Kept, ChunkKey, KeyOf;
  }

  /** One row for every numbered chunk of a document there is, in order, with its own fields. */
  lemma {:induction false} ChunksAre(company: nat, data: Data, rows: Rows) returns (at: seq<nat>)
    requires rows.chunks == ChunkRows(company, data, |data.chunks|)
    ensures Selects(at, |data.chunks|, NumberedPlaces(data)) && ChunkRowsFor(company, data, at, rows.chunks)
  {
    at := ChunksSelected(company, data, |data.chunks|);
    forall i: nat | i < |data.chunks| ensures i in ChunkPlaces(data) <==> i in NumberedPlaces(data) {
      HasDocumentIs(data, data.chunks[i].documentId);
    }
    SelectSame(at, |data.chunks|, ChunkPlaces(data), NumberedPlaces(data));
  }

  /** Documents and conversations become rows one by one, with their own fields. */
  lemma {:induction false} DocumentsAndConversationsAre(company: nat, data: Data)
    ensures var rows := DocumentRows(company, data.documents);
            && |rows| == |data.documents|
            && forall i | 0 <= i < |rows| :: var d := data.documents[i];
                 rows[i] == DocumentRow(Decimal(company) + ":" + d.id, d.id, d.slug, d.title, d.source, d.category, d.version)
    ensures var rows, items := ConversationRows(company, ById(data.conversations)), ById(data.conversations);
            && |rows| == |items|
            && forall i | 0 <= i < |rows| :: var c := items[i];
                 rows[i] == ConversationRow(Decimal(company) + ":" + c.id, c.id, c.status, c.agent, c.startedAt)
  {
  }

  /** The value under an id is the last one of the collection. */
  ghost predicate LastOf(items: seq<Conversation>, c: Conversation) {
    exists k :: 0 <= k < |items| && items[k] == c && forall j | k < j < |items| :: items[j].id != c.id
  }

  /** The first one with this id comes before the first one with that. */
  ghost predicate FirstBefore(items: seq<Conversation>, a: string, b: string) {
    exists k :: 0 <= k < |items| && items[k].id == a && forall j | 0 <= j <= k :: items[j].id != b
  }

  /** The dict keeps each id at its first place and with its last value. */
  lemma {:induction false} ByIdKeepsTheLast(items: seq<Conversation>)
    ensures forall i | 0 <= i < |ById(items)| :: LastOf(items, ById(items)[i])
    ensures forall i, j | 0 <= i < j < |ById(items)| :: FirstBefore(items, ById(items)[i].id, ById(items)[j].id)
  {
    if items != [] {
      var front, last := items[..|items| - 1], items[|items| - 1];
      var rest, all := ById(front), ById(items);
      ByIdKeepsTheLast(front);
      ByIdIds(front, last.id);
      forall i | 0 <= i < |all| ensures LastOf(items, all[i]) {
        if all[i] == last {
          assert items[|items| - 1] == last;
        } else {
          LastStays(items, rest[i]);
        }
      }
      forall i, j | 0 <= i < j < |all| ensures FirstBefore(items, all[i].id, all[j].id) {
        if j < |rest| {
          FirstStays(items, rest[i].id, rest[j].id);
        } else {
          NewcomerIsLast(items, rest[i]);
        }
      }
    }
  }

  lemma LastStays(items: seq<Conversation>, c: Conversation)
    requires items != [] && LastOf(items[..|items| - 1], c) && c.id != items[|items| - 1].id
    ensures LastOf(items, c)
  {
    var front := items[..|items| - 1];
    var k :| 0 <= k < |front| && front[k] == c && forall j | k < j < |front| :: front[j].id != c.id;
    assert forall j | 0 <= j < |front| :: items[j] == front[j];
    assert items[k] == c;
  }

  lemma FirstStays(items: seq<Conversation>, a: string, b: string)
    requires items != [] && FirstBefore(items[..|items| - 1], a, b)
    ensures FirstBefore(items, a, b)
  {
    var front := items[..|items| - 1];
    var k :| 0 <= k < |front| && front[k].id == a && forall j | 0 <= j <= k :: front[j].id != b;
    assert forall j | 0 <= j < |front| :: items[j] == front[j];
    assert items[k].id == a;
  }

  lemma NewcomerIsLast(items: seq<Conversation>, c: Conversation)
    requires items != [] && !HasConversation(items[..|items| - 1], items[|items| - 1].id) && LastOf(items[..|items| - 1], c)
    ensures FirstBefore(items, c.id, items[|items| - 1].id)
  {
    var front := items[..|items| - 1];
    var k :| 0 <= k < |front| && front[k] == c && forall j | k < j < |front| :: front[j].id != c.id;
    assert forall j | 0 <= j < |front| :: items[j] == front[j];
    assert items[k].id == c.id;
  }
}
