/**
 Splitting a document into chunks (app/rag/ingestion.py): paragraphs, then
 sentences packed greedily up to a character limit.
 */
module Chunking {
  import opened Characters
  import opened Wrappers

  // ---- Python's str.strip, str.split and " ".join ----

  function Strip(s: string): string {
    if s == "" then ""
    else if IsSpace(s[0]) then Strip(s[1..])
    else if IsSpace(s[|s| - 1]) then Strip(s[..|s| - 1])
    else s
  }

  /** The first place where sep starts, from i on. */
  function Find(s: string, sep: string, i: nat): (r: Option<nat>)
    requires i <= |s|
    ensures r.Some? ==> i <= r.value && r.value + |sep| <= |s| && s[r.value..r.value + |sep|] == sep
    decreases |s| - i
  {
    if i + |sep| > |s| then None
    else if s[i..i + |sep|] == sep then Some(i)
    else if i == |s| then None
    else Find(s, sep, i + 1)
  }

  function Split(s: string, sep: string): (parts: seq<string>)
    requires sep != ""
    ensures parts != []
    decreases |s|
  {
    match Find(s, sep, 0)
    case None => [s]
    case Some(i) => [s[..i]] + Split(s[i + |sep|..], sep)
  }

  /** [p.strip() for p in parts if p.strip()] */
  function Stripped(parts: seq<string>): seq<string> {
    if parts == [] then [] else
      (if Strip(parts[0]) == "" then [] else [Strip(parts[0])]) + Stripped(parts[1..])
  }

  function SpacesForNewlines(s: string): string {
    seq(|s|, i requires 0 <= i < |s| => if s[i] == '\n' then ' ' else s[i])
  }

  function Join(parts: seq<string>): string {
    if parts == [] then ""
    else if |parts| == 1 then parts[0]
    else parts[0] + " " + Join(parts[1..])
  }

  function JoinEach(groups: seq<seq<string>>): (r: seq<string>)
    ensures |r| == |groups| && forall i | 0 <= i < |r| :: r[i] == Join(groups[i])
  {
    seq(|groups|, i requires 0 <= i < |groups| => Join(groups[i]))
  }

  function Flatten<T>(groups: seq<seq<T>>): seq<T> {
    if groups == [] then [] else groups[0] + Flatten(groups[1..])
  }

  function Paragraphs(text: string): seq<string> {
    Stripped(Split(text, "\n\n"))
  }

  function Sentences(paragraph: string): seq<string> {
    Stripped(Split(SpacesForNewlines(paragraph), ". "))
  }

  /** A sentence with its end mark put back. */
  function Piece(sentence: string): string {
    if sentence != "" && sentence[|sentence| - 1] in ".!?" then sentence else sentence + "."
  }

  function Pieces(sentences: seq<string>): (r: seq<string>)
    ensures |r| == |sentences| && forall i | 0 <= i < |r| :: r[i] == Piece(sentences[i])
  {
    seq(|sentences|, i requires 0 <= i < |sentences| => Piece(sentences[i]))
  }

  // ---- The greedy grouping ----

  /** How far the first group grows, once it has k pieces. */
  function Longest(pieces: seq<string>, maxChars: int, k: nat): (n: nat)
    requires 1 <= k <= |pieces|
    ensures k <= n <= |pieces|
    decreases |pieces| - k
  {
    if k == |pieces| || |Join(pieces[..k + 1])| > maxChars then k else Longest(pieces, maxChars, k + 1)
  }

  function Greedy(pieces: seq<string>, maxChars: int): seq<seq<string>> {
    if pieces == [] then [] else
      var k := Longest(pieces, maxChars, 1);
      [pieces[..k]] + Greedy(pieces[k..], maxChars)
  }

  function ParagraphChunks(paragraph: string, maxChars: int): seq<string> {
    if |paragraph| <= maxChars then [paragraph]
    else JoinEach(Greedy(Pieces(Sentences(paragraph)), maxChars))
  }

  function ChunksUpTo(paragraphs: seq<string>, maxChars: int, n: nat): seq<string>
    requires n <= |paragraphs|
  {
    if n == 0 then [] else ChunksUpTo(paragraphs, maxChars, n - 1) + ParagraphChunks(paragraphs[n - 1], maxChars)
  }

  function Chunks(text: string, maxChars: int): seq<string> {
    ChunksUpTo(Paragraphs(text), maxChars, |Paragraphs(text)|)
  }

  // ---- The program ----

  /** Nonempty, with no space at either end. */
  predicate Trim(s: string) {
    s != "" && !IsSpace(s[0]) && !IsSpace(s[|s| - 1])
  }

  lemma {:induction false} StripTrims(s: string)
    ensures Strip(s) == "" || Trim(Strip(s))
    ensures Strip(s) == "" <==> Blank(s)
    ensures Trim(s) ==> Strip(s) == s
    decreases |s|
  {
    if s != "" {
      if IsSpace(s[0]) {
        StripTrims(s[1..]);
        assert s == [s[0]] + s[1..];
      } else if IsSpace(s[|s| - 1]) {
        StripTrims(s[..|s| - 1]);
      }
    }
  }

  lemma {:induction false} StrippedTrim(parts: seq<string>)
    ensures forall i | 0 <= i < |Stripped(parts)| :: Trim(Stripped(parts)[i])
  {
    if parts != [] {
      StripTrims(parts[0]);
      StrippedTrim(parts[1..]);
    }
  }

  lemma {:induction false} JoinMore(group: seq<string>, piece: string)
    ensures group != [] ==> Join(group + [piece]) == Join(group) + " " + piece
  {
    if |group| > 1 {
      JoinMore(group[1..], piece);
      assert (group + [piece])[1..] == group[1..] + [piece];
    }
  }

  lemma {:induction false} JoinTrims(group: seq<string>)
    requires group != [] && forall i | 0 <= i < |group| :: Trim(group[i])
    ensures Trim(Join(group))
  {
    if |group| > 1 {
      JoinTrims(group[1..]);
    }
  }

  /** The inner loop has closed the groups before `start` and is filling the one from `start` to `i`. */
  ghost predicate Filling(pieces: seq<string>, maxChars: int, chunks: seq<string>, current: string, start: nat, i: nat) {
    && start <= i <= |pieces| && (i > 0 ==> start < i)
    && current == Join(pieces[start..i])
    && (i > 0 ==> Longest(pieces[start..], maxChars, 1) == Longest(pieces[start..], maxChars, i - start))
    && JoinEach(Greedy(pieces, maxChars)) == chunks + JoinEach(Greedy(pieces[start..], maxChars))
  }

  lemma JoinEachCons(group: seq<string>, groups: seq<seq<string>>)
    ensures JoinEach([group] + groups) == [Join(group)] + JoinEach(groups)
  {
  }

  /** The current group takes piece i. */
  lemma Grow(pieces: seq<string>, maxChars: int, chunks: seq<string>, current: string, start: nat, i: nat)
    requires Filling(pieces, maxChars, chunks, current, start, i) && i < |pieces|
    requires i > 0 ==> |Join(pieces[start..i + 1])| <= maxChars
    ensures Filling(pieces, maxChars, chunks, Join(pieces[start..i + 1]), start, i + 1)
  {
    assert i > 0 ==> pieces[start..][..i - start + 1] == pieces[start..i + 1];
    hide Greedy, Join;
  }

  /** The current group is full: piece i starts the next one. */
  lemma Close(pieces: seq<string>, maxChars: int, chunks: seq<string>, current: string, start: nat, i: nat)
    requires Filling(pieces, maxChars, chunks, current, start, i) && 0 < i
    requires i < |pieces| ==> |Join(pieces[start..i + 1])| > maxChars
    ensures JoinEach(Greedy(pieces, maxChars)) == (chunks + [current]) + JoinEach(Greedy(pieces[i..], maxChars))
    ensures i < |pieces| ==> Filling(pieces, maxChars, chunks + [current], pieces[i], i, i + 1)
  {
    var rest := pieces[start..];
    assert i < |pieces| ==> rest[..i - start + 1] == pieces[start..i + 1];
    assert rest[..i - start] == pieces[start..i] && rest[i - start..] == pieces[i..];
    assert Longest(rest, maxChars, 1) == i - start;
    assert Greedy(rest, maxChars) == [pieces[start..i]] + Greedy(pieces[i..], maxChars);
    JoinEachCons(pieces[start..i], Greedy(pieces[i..], maxChars));
    assert i < |pieces| ==> pieces[i..i + 1] == [pieces[i]];
    hide Greedy;
  }

  /** One long paragraph: the inner loop. */
  method PackSentences(sentences: seq<string>, maxChars: int) returns (chunks: seq<string>)
    requires forall i | 0 <= i < |sentences| :: Trim(sentences[i])
    ensures chunks == JoinEach(Greedy(Pieces(sentences), maxChars))
  {
    hide *;
    ghost var pieces := Pieces(sentences);
    PiecesTrim(sentences);
    StartFilling(pieces, maxChars);
    chunks := [];
    var current := "";
    ghost var start := 0;
    for i := 0 to |sentences|
      invariant start <= i && (i > 0 ==> start < i) && (i == 0 ==> chunks == [])
      invariant Filling(pieces, maxChars, chunks, current, start, i)
      invariant current != "" <==> i > 0
      invariant current != "" ==> Trim(current)
    {
      var piece := Piece(sentences[i]);
      var candidate := if current != "" then Strip(current + " " + piece) else piece;
      CandidateIsJoin(pieces, maxChars, chunks, current, start, i);
      if |candidate| > maxChars && current != "" {
        Close(pieces, maxChars, chunks, current, start, i);
        chunks := chunks + [current];
        current := piece;
        start := i;
      } else {
        Grow(pieces, maxChars, chunks, current, start, i);
        current := candidate;
      }
    }
    if current != "" {
      Close(pieces, maxChars, chunks, current, start, |pieces|);
      chunks := chunks + [current];
      assert chunks + [] == chunks;
    }
  }

  lemma PiecesTrim(sentences: seq<string>)
    requires forall i | 0 <= i < |sentences| :: Trim(sentences[i])
    ensures |Pieces(sentences)| == |sentences|
    ensures forall i | 0 <= i < |sentences| :: 
              Pieces(sentences)[i] == Piece(sentences[i]) != "" && Trim(Pieces(sentences)[i])
  {
  }

  lemma StartFilling(pieces: seq<string>, maxChars: int)
    ensures Filling(pieces, maxChars, [], "", 0, 0)
    ensures JoinEach(Greedy(pieces[|pieces|..], maxChars)) == []
    ensures |pieces| == 0 ==> JoinEach(Greedy(pieces, maxChars)) == []
  {
  }

  /** The outer strip() removes nothing. */
  lemma CandidateIsJoin(pieces: seq<string>, maxChars: int, chunks: seq<string>, current: string, start: nat, i: nat)
    requires start <= i < |pieces| && Filling(pieces, maxChars, chunks, current, start, i) && Trim(pieces[i])
    requires current != "" <==> start < i
    requires current != "" ==> Trim(current)
    ensures Join(pieces[start..i + 1]) == if current != "" then Strip(current + " " + pieces[i]) else pieces[i]
    ensures Trim(Join(pieces[start..i + 1])) && Join(pieces[start..i + 1]) != ""
  {
    assert pieces[start..i] + [pieces[i]] == pieces[start..i + 1];
    JoinMore(pieces[start..i], pieces[i]);
    StripTrims(current + " " + pieces[i]);
  }

  method SplitIntoChunks(text: string, maxChars: int) returns (chunks: seq<string>)
    ensures chunks == Chunks(text, maxChars)
  {
    var paragraphs := Paragraphs(text);
    chunks := [];
    for i := 0 to |paragraphs|
      invariant chunks == ChunksUpTo(paragraphs, maxChars, i)
    {
      if |paragraphs[i]| <= maxChars {
        chunks := chunks + [paragraphs[i]];
      } else {
        var sentences := Sentences(paragraphs[i]);
        StrippedTrim(Split(SpacesForNewlines(paragraphs[i]), ". "));
        var packed := PackSentences(sentences, maxChars);
        chunks := chunks + packed;
      }
    }
  }
}
