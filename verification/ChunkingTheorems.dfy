/** The chunks are optimal, within bounds, and lose nothing but spaces and full stops. */
module ChunkingTheorems {
  import opened Characters
  import opened Wrappers
  import opened Chunking

  // ---- Optimal grouping ----

  /** A group may be emitted when it fits or is a single piece. */
  predicate Fits(group: seq<string>, maxChars: int) {
    group != [] && (|group| == 1 || |Join(group)| <= maxChars)
  }

  predicate AllFit(groups: seq<seq<string>>, maxChars: int) {
    forall i | 0 <= i < |groups| :: Fits(groups[i], maxChars)
  }

  lemma {:induction false} DropFirst(group: seq<string>, n: nat)
    requires n < |group|
    ensures |Join(group[n..])| <= |Join(group)|
  {
    if n > 0 {
      DropFirst(group[1..], n - 1);
      assert group[1..][n - 1..] == group[n..];
    }
  }

  lemma {:induction false} DropLast(group: seq<string>, n: nat)
    requires 0 < n <= |group|
    ensures |Join(group[..n])| <= |Join(group)|
  {
    if n > 1 {
      DropLast(group[1..], n - 1);
      assert group[1..][..n - 1] == group[..n][1..];
    }
  }

  /** Every nonempty stretch of a group that fits, fits. */
  lemma StretchFits(group: seq<string>, a: nat, b: nat, maxChars: int)
    requires Fits(group, maxChars) && a < b <= |group|
    ensures Fits(group[a..b], maxChars)
  {
    DropLast(group, b);
    DropFirst(group[..b], a);
    assert group[..b][a..] == group[a..b];
  }

  /** The greedy group is the longest prefix that fits. */
  lemma {:induction false} LongestReaches(pieces: seq<string>, maxChars: int, k: nat, n: nat)
    requires 1 <= k <= |pieces| && n <= |pieces|
    requires forall m | k < m <= n :: Fits(pieces[..m], maxChars)
    ensures Longest(pieces, maxChars, k) >= n
    decreases |pieces| - k
  {
    if k < n {
      assert Fits(pieces[..k + 1], maxChars);
      LongestReaches(pieces, maxChars, k + 1, n);
    }
  }

  /** From any point of a valid grouping's text, greedy needs no more groups than are left. */
  lemma {:induction false} GreedyStaysAhead(groups: seq<seq<string>>, maxChars: int, j: nat)
    requires AllFit(groups, maxChars) && j <= |Flatten(groups)|
    ensures |Greedy(Flatten(groups)[j..], maxChars)| <= |groups|
    decreases |groups|
  {
    var pieces := Flatten(groups);
    if j < |pieces| {
      var first, rest := groups[0], groups[1..];
      var m := |first|;
      assert pieces == first + Flatten(rest);
      if j >= m {
        assert pieces[j..] == Flatten(rest)[j - m..];
        GreedyStaysAhead(rest, maxChars, j - m);
      } else {
        var from := pieces[j..];
        forall n | 1 < n <= m - j ensures Fits(from[..n], maxChars) {
          StretchFits(first, j, j + n, maxChars);
          assert from[..n] == first[j..j + n];
        }
        LongestReaches(from, maxChars, 1, m - j);
        var k := Longest(from, maxChars, 1);
        assert from[k..] == Flatten(rest)[j + k - m..];
        GreedyStaysAhead(rest, maxChars, j + k - m);
      }
    }
  }

  /** No order-preserving grouping into groups that fit or are single sentences has fewer chunks. */
  lemma {:induction false} GreedyIsOptimal(pieces: seq<string>, maxChars: int, groups: seq<seq<string>>)
    requires Flatten(groups) == pieces && AllFit(groups, maxChars)
    ensures |Greedy(pieces, maxChars)| <= |groups|
  {
    GreedyStaysAhead(groups, maxChars, 0);
    assert pieces[0..] == pieces;
  }

  lemma {:induction false} LongestFits(pieces: seq<string>, maxChars: int, k: nat)
    requires 1 <= k <= |pieces| && Fits(pieces[..k], maxChars)
    ensures Fits(pieces[..Longest(pieces, maxChars, k)], maxChars)
    decreases |pieces| - k
  {
    if k < |pieces| && |Join(pieces[..k + 1])| <= maxChars {
      LongestFits(pieces, maxChars, k + 1);
    }
  }

  /** The greedy grouping is itself a valid one, of exactly these pieces. */
  lemma {:induction false} GreedyIsValid(pieces: seq<string>, maxChars: int)
    ensures Flatten(Greedy(pieces, maxChars)) == pieces
    ensures AllFit(Greedy(pieces, maxChars), maxChars)
  {
    if pieces != [] {
      var k := Longest(pieces, maxChars, 1);
      GreedyIsValid(pieces[k..], maxChars);
      LongestFits(pieces, maxChars, 1);
      assert pieces == pieces[..k] + pieces[k..];
    }
  }

  // ---- Nothing is lost inside a paragraph ----

  lemma {:induction false} JoinConcat(a: seq<string>, b: seq<string>)
    requires a != [] && b != []
    ensures Join(a + b) == Join(a) + " " + Join(b)
  {
    if |a| == 1 {
      assert (a + b)[1..] == b;
    } else {
      JoinConcat(a[1..], b);
      assert (a + b)[1..] == a[1..] + b;
      assert Join(a + b) == a[0] + " " + (Join(a[1..]) + " " + Join(b));
      assert a[0] + " " + (Join(a[1..]) + " " + Join(b)) == (a[0] + " " + Join(a[1..])) + " " + Join(b);
    }
  }

  /** Joining the chunks with a space gives the joined pieces. */
  lemma {:induction false} ChunksRejoin(groups: seq<seq<string>>, maxChars: int)
    requires AllFit(groups, maxChars)
    ensures Join(JoinEach(groups)) == Join(Flatten(groups))
  {
    if groups != [] {
      var rest := groups[1..];
      ChunksRejoin(rest, maxChars);
      assert JoinEach(groups) == [Join(groups[0])] + JoinEach(rest);
      if rest == [] {
        assert Flatten(groups) == groups[0];
      } else {
        assert Fits(rest[0], maxChars) && Flatten(rest) != [];
        JoinConcat(groups[0], Flatten(rest));
        assert JoinEach(groups)[1..] == JoinEach(rest);
      }
    }
  }

  /** What the program does with a long paragraph: as few chunks as possible, each one
      within the limit or a single sentence, and joined they are the joined sentences. */
  lemma {:induction false} LongParagraph(paragraph: string, maxChars: int, groups: seq<seq<string>>)
    requires |paragraph| > maxChars
    ensures var pieces, chunks := Pieces(Sentences(paragraph)), ParagraphChunks(paragraph, maxChars);
            && Join(chunks) == Join(pieces)
            && (forall i | 0 <= i < |chunks| :: |chunks[i]| <= maxChars || chunks[i] in pieces)
            && (Flatten(groups) == pieces && AllFit(groups, maxChars) ==> |chunks| <= |groups|)
  {
    var pieces := Pieces(Sentences(paragraph));
    var greedy := Greedy(pieces, maxChars);
    GreedyIsValid(pieces, maxChars);
    ChunksRejoin(greedy, maxChars);
    if Flatten(groups) == pieces && AllFit(groups, maxChars) {
      GreedyIsOptimal(pieces, maxChars, groups);
    }
    var chunks := ParagraphChunks(paragraph, maxChars);
    forall i | 0 <= i < |chunks| ensures |chunks[i]| <= maxChars || chunks[i] in pieces {
      assert Fits(greedy[i], maxChars) && chunks[i] == Join(greedy[i]);
      if |greedy[i]| == 1 {
        InFlatten(greedy, i, 0);
      }
    }
  }

  /** A group of the trimmed pieces joins to a trimmed chunk. */
  lemma TrimmedGroup(groups: seq<seq<string>>, i: nat)
    requires i < |groups| && groups[i] != []
    requires forall p | p in Flatten(groups) :: Trim(p)
    ensures Trim(Join(groups[i]))
  {
    forall j | 0 <= j < |groups[i]| ensures Trim(groups[i][j]) {
      InFlatten(groups, i, j);
    }
    JoinTrims(groups[i]);
  }

  lemma ParagraphChunksTrim(paragraph: string, maxChars: int)
    requires Trim(paragraph)
    ensures forall i | 0 <= i < |ParagraphChunks(paragraph, maxChars)| :: Trim(ParagraphChunks(paragraph, maxChars)[i])
  {
    if |paragraph| > maxChars {
      var sentences := Sentences(paragraph);
      var greedy := Greedy(Pieces(sentences), maxChars);
      StrippedTrim(Split(SpacesForNewlines(paragraph), ". "));
      PiecesTrim(sentences);
      GreedyIsValid(Pieces(sentences), maxChars);
      hide Greedy, Sentences, Trim, Join, Flatten;
      forall i | 0 <= i < |greedy| ensures Trim(Join(greedy[i])) {
        assert Fits(greedy[i], maxChars);
        TrimmedGroup(greedy, i);
      }
    }
  }

  lemma {:induction false} ChunksUpToTrim(paragraphs: seq<string>, maxChars: int, n: nat)
    requires n <= |paragraphs| && forall i | 0 <= i < |paragraphs| :: Trim(paragraphs[i])
    ensures forall i | 0 <= i < |ChunksUpTo(paragraphs, maxChars, n)| :: Trim(ChunksUpTo(paragraphs, maxChars, n)[i])
  {
    if n > 0 {
      hide Trim, ParagraphChunks;
      ChunksUpToTrim(paragraphs, maxChars, n - 1);
      ParagraphChunksTrim(paragraphs[n - 1], maxChars);
    }
  }

  /** No chunk is empty or carries space at either end, for any text and limit. */
  lemma {:induction false} ChunksAreTrimmed(text: string, maxChars: int)
    ensures forall i | 0 <= i < |Chunks(text, maxChars)| :: Trim(Chunks(text, maxChars)[i])
  {
    StrippedTrim(Split(text, "\n\n"));
    ChunksUpToTrim(Paragraphs(text), maxChars, |Paragraphs(text)|);
  }

  lemma {:induction false} InFlatten(groups: seq<seq<string>>, i: nat, j: nat)
    requires i < |groups| && j < |groups[i]|
    ensures groups[i][j] in Flatten(groups)
  {
    if i > 0 {
      InFlatten(groups[1..], i - 1, j);
    }
  }

  // ---- Nothing is lost from the text ----

  /** What is left of a text without spaces and full stops. */
  function Ink(s: string): string {
    if s == "" then "" else InkChar(s[0]) + Ink(s[1..])
  }

  function InkChar(c: char): string {
    if IsSpace(c) || c == '.' then "" else [c]
  }

  lemma {:induction false} InkConcat(s: string, t: string)
    ensures Ink(s + t) == Ink(s) + Ink(t)
  {
    if s == "" {
      assert s + t == t;
    } else {
      assert (s + t)[1..] == s[1..] + t && (s + t)[0] == s[0];
      hide InkChar;
      InkConcat(s[1..], t);
      Assoc(InkChar(s[0]), Ink(s[1..]), Ink(t));
    }
  }

  lemma {:induction false} InkStrip(s: string)
    ensures Ink(Strip(s)) == Ink(s)
    decreases |s|
  {
    if s != "" {
      if IsSpace(s[0]) {
        InkStrip(s[1..]);
      } else if IsSpace(s[|s| - 1]) {
        var front, last := s[..|s| - 1], s[|s| - 1];
        assert Strip(s) == Strip(front);
        InkStrip(front);
        InkOne(last);
        hide Ink, Strip, IsSpace;
        InkConcat(front, [last]);
        assert s == front + [last];
        assert Ink(front) + "" == Ink(front);
      }
    }
  }

  lemma InkOne(c: char)
    ensures Ink([c]) == InkChar(c)
    ensures IsSpace(c) ==> Ink([c]) == ""
  {
    assert [c][1..] == "";
    assert InkChar(c) + "" == InkChar(c);
  }

  /** One step of split: the text before the first separator, and the rest. */
  lemma SplitStep(s: string, sep: string)
    requires sep != ""
    ensures Find(s, sep, 0).None? ==> Split(s, sep) == [s]
    ensures Find(s, sep, 0).Some? ==>
              var i := Find(s, sep, 0).value;
              s == s[..i] + (sep + s[i + |sep|..]) && Split(s, sep) == [s[..i]] + Split(s[i + |sep|..], sep)
  {
    var r := Find(s, sep, 0);
    if r.Some? {
      var i := r.value;
      assert s[i..] == s[i..i + |sep|] + s[i + |sep|..];
      assert s == s[..i] + s[i..];
    }
  }

  lemma FlattenCons(first: string, rest: seq<string>)
    ensures Flatten([first] + rest) == first + Flatten(rest)
  {
    assert ([first] + rest)[1..] == rest;
  }

  lemma {:induction false} InkSplit(s: string, sep: string)
    requires sep != "" && Ink(sep) == ""
    ensures Ink(Flatten(Split(s, sep))) == Ink(s)
    decreases |s|
  {
    hide *;
    SplitStep(s, sep);
    var r := Find(s, sep, 0);
    if r.None? {
      FlattenOne(s);
    } else {
      var before, rest := s[..r.value], s[r.value + |sep|..];
      InkSplit(rest, sep);
      InkAround(before, sep, rest, Split(rest, sep));
      assert Split(s, sep) == [before] + Split(rest, sep);
      assert s == before + (sep + rest);
    }
  }

  lemma InkAround(before: string, sep: string, rest: string, parts: seq<string>)
    requires Ink(sep) == "" && Ink(Flatten(parts)) == Ink(rest)
    ensures Ink(Flatten([before] + parts)) == Ink(before + (sep + rest))
  {
    hide Ink, Flatten;
    FlattenCons(before, parts);
    InkConcat(before, Flatten(parts));
    InkConcat(sep, rest);
    InkConcat(before, sep + rest);
    assert "" + Ink(rest) == Ink(rest);
  }

  lemma FlattenOne(s: string)
    ensures Flatten([s]) == s
  {
    assert Flatten([s][1..]) == "";
  }

  lemma {:induction false} InkStripped(parts: seq<string>)
    ensures Ink(Flatten(Stripped(parts))) == Ink(Flatten(parts))
  {
    if parts != [] {
      var rest := Stripped(parts[1..]);
      InkStripped(parts[1..]);
      InkStrip(parts[0]);
      InkConcat(parts[0], Flatten(parts[1..]));
      InkConcat(Strip(parts[0]), Flatten(rest));
      if Strip(parts[0]) == "" {
        assert [] + rest == rest;
      } else {
        assert ([Strip(parts[0])] + rest)[1..] == rest;
      }
    }
  }

  lemma {:induction false} InkSpaces(s: string)
    ensures Ink(SpacesForNewlines(s)) == Ink(s)
  {
    if s != "" {
      InkSpaces(s[1..]);
      assert SpacesForNewlines(s)[1..] == SpacesForNewlines(s[1..]);
    }
  }

  lemma {:induction false} InkPieces(sentences: seq<string>)
    ensures Ink(Flatten(Pieces(sentences))) == Ink(Flatten(sentences))
  {
    if sentences != [] {
      var s := sentences[0];
      InkPieces(sentences[1..]);
      assert Pieces(sentences)[1..] == Pieces(sentences[1..]);
      InkConcat(Piece(s), Flatten(Pieces(sentences[1..])));
      InkConcat(s, Flatten(sentences[1..]));
      InkConcat(s, ".");
    }
  }

  lemma {:induction false} InkJoin(parts: seq<string>)
    ensures Ink(Join(parts)) == Ink(Flatten(parts))
  {
    if |parts| == 1 {
      assert Flatten(parts) == parts[0];
    } else if |parts| > 1 {
      InkJoin(parts[1..]);
      InkConcat(parts[0] + " ", Join(parts[1..]));
      InkConcat(parts[0], " ");
      InkConcat(parts[0], Flatten(parts[1..]));
    }
  }

  lemma InkParagraph(paragraph: string, maxChars: int)
    ensures Ink(Flatten(ParagraphChunks(paragraph, maxChars))) == Ink(paragraph)
  {
    if |paragraph| <= maxChars {
      assert Flatten([paragraph]) == paragraph;
    } else {
      var flat := SpacesForNewlines(paragraph);
      InkSpaces(paragraph);
      InkSplit(flat, ". ");
      InkStripped(Split(flat, ". "));
      InkPieces(Sentences(paragraph));
      LongParagraph(paragraph, maxChars, []);
      InkJoin(ParagraphChunks(paragraph, maxChars));
      InkJoin(Pieces(Sentences(paragraph)));
    }
  }

  lemma {:induction false} FlattenConcat(a: seq<string>, b: seq<string>)
    ensures Flatten(a + b) == Flatten(a) + Flatten(b)
  {
    if a == [] {
      assert a + b == b;
    } else {
      assert (a + b)[1..] == a[1..] + b && (a + b)[0] == a[0];
      FlattenConcat(a[1..], b);
      Assoc(a[0], Flatten(a[1..]), Flatten(b));
    }
  }

  lemma TakeOneMore(paragraphs: seq<string>, n: nat)
    requires 0 < n <= |paragraphs|
    ensures paragraphs[..n] == paragraphs[..n - 1] + [paragraphs[n - 1]]
  {
  }

  lemma {:induction false} InkChunks(paragraphs: seq<string>, maxChars: int, n: nat)
    requires n <= |paragraphs|
    ensures Ink(Flatten(ChunksUpTo(paragraphs, maxChars, n))) == Ink(Flatten(paragraphs[..n]))
  {
    if n > 0 {
      var p := paragraphs[n - 1];
      var before, last := ChunksUpTo(paragraphs, maxChars, n - 1), ParagraphChunks(p, maxChars);
      assert ChunksUpTo(paragraphs, maxChars, n) == before + last;
      hide *;
      TakeOneMore(paragraphs, n);
      InkChunks(paragraphs, maxChars, n - 1);
      InkParagraph(p, maxChars);
      InkFlattenConcat(before, last);
      InkFlattenConcat(paragraphs[..n - 1], [p]);
      FlattenOne(p);
    }
  }

  lemma InkFlattenConcat(a: seq<string>, b: seq<string>)
    ensures Ink(Flatten(a + b)) == Ink(Flatten(a)) + Ink(Flatten(b))
  {
    FlattenConcat(a, b);
    InkConcat(Flatten(a), Flatten(b));
  }

  /** End to end, for every text and limit: the chunks carry every character of the text
      in order, apart from spaces and full stops. */
  lemma {:induction false} NothingIsLost(text: string, maxChars: int)
    ensures Ink(Flatten(Chunks(text, maxChars))) == Ink(text)
  {
    var paragraphs := Paragraphs(text);
    InkChunks(paragraphs, maxChars, |paragraphs|);
    assert paragraphs[..|paragraphs|] == paragraphs;
    InkStripped(Split(text, "\n\n"));
    InkSplit(text, "\n\n");
  }

  // ---- Blank texts ----

  lemma {:induction false} StrippedEmpty(parts: seq<string>)
    ensures Stripped(parts) == [] <==> AllBlank(parts)
  {
    if parts != [] {
      StripTrims(parts[0]);
      StrippedEmpty(parts[1..]);
      assert forall i | 1 <= i < |parts| :: parts[i] == parts[1..][i - 1];
    }
  }

  predicate AllBlank(parts: seq<string>) {
    forall i | 0 <= i < |parts| :: Blank(parts[i])
  }

  lemma AllBlankCons(first: string, rest: seq<string>)
    ensures AllBlank([first] + rest) <==> Blank(first) && AllBlank(rest)
  {
    assert forall i | 0 <= i < |rest| :: ([first] + rest)[i + 1] == rest[i];
    assert ([first] + rest)[0] == first;
  }

  lemma BlankConcat(s: string, t: string)
    ensures Blank(s + t) <==> Blank(s) && Blank(t)
  {
    assert forall i | 0 <= i < |t| :: (s + t)[|s| + i] == t[i];
    assert forall i | 0 <= i < |s| :: (s + t)[i] == s[i];
  }

  /** Splitting on blank lines leaves something exactly when the text holds something. */
  lemma {:induction false} SplitBlank(s: string, sep: string)
    requires sep != "" && Blank(sep)
    ensures AllBlank(Split(s, sep)) <==> Blank(s)
    decreases |s|
  {
    SplitStep(s, sep);
    hide Split, Blank;
    var r := Find(s, sep, 0);
    if r.Some? {
      var i, rest := r.value, s[r.value + |sep|..];
      SplitBlank(rest, sep);
      AllBlankCons(s[..i], Split(rest, sep));
      BlankConcat(s[..i], sep + rest);
      BlankConcat(sep, rest);
    } else {
      AllBlankCons(s, []);
      assert [s] + [] == [s];
    }
  }

  /** A text ending in ink keeps a part with ink. */
  lemma {:induction false} SplitKeepsLast(s: string, sep: string)
    requires sep != "" && s != "" && IsSpace(sep[|sep| - 1]) && !IsSpace(s[|s| - 1])
    ensures !AllBlank(Split(s, sep))
    decreases |s|
  {
    hide *;
    SplitStep(s, sep);
    var r := Find(s, sep, 0);
    if r.Some? {
      var i, rest := r.value, s[r.value + |sep|..];
      LastOfRest(s, sep, i);
      SplitKeepsLast(rest, sep);
      AllBlankCons(s[..i], Split(rest, sep));
    } else {
      NotBlank(s);
      AllBlankCons(s, []);
      assert [s] + [] == [s];
    }
  }

  lemma LastOfRest(s: string, sep: string, i: nat)
    requires sep != "" && i + |sep| <= |s| && s[i..i + |sep|] == sep && s[|s| - 1] != sep[|sep| - 1]
    ensures var rest := s[i + |sep|..]; rest != "" && rest[|rest| - 1] == s[|s| - 1]
  {
    assert s[i..i + |sep|][|sep| - 1] == s[i + |sep| - 1];
  }

  lemma NotBlank(s: string)
    requires s != "" && !IsSpace(s[|s| - 1])
    ensures !Blank(s)
  {
  }

  lemma ParagraphHasChunks(paragraph: string, maxChars: int)
    requires Trim(paragraph)
    ensures ParagraphChunks(paragraph, maxChars) != []
  {
    var flat := SpacesForNewlines(paragraph);
    assert flat[|flat| - 1] == paragraph[|paragraph| - 1];
    SplitKeepsLast(flat, ". ");
    StrippedEmpty(Split(flat, ". "));
  }

  /** No chunks come out exactly when the text is blank. */
  lemma {:induction false} NoChunksIffBlank(text: string, maxChars: int)
    ensures Chunks(text, maxChars) == [] <==> Blank(text)
  {
    var paragraphs := Paragraphs(text);
    SplitBlank(text, "\n\n");
    StrippedEmpty(Split(text, "\n\n"));
    assert Blank("\n\n");
    assert paragraphs == [] <==> Blank(text);
    if paragraphs != [] {
      StrippedTrim(Split(text, "\n\n"));
      ParagraphHasChunks(paragraphs[|paragraphs| - 1], maxChars);
    }
  }
}
