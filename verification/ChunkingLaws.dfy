/** How a text is taken apart before its sentences are packed, in plain terms (app/rag/ingestion.py). */
module ChunkingLaws {
  import opened Characters
  import opened Wrappers
  import opened Chunking

  /** sep.join(parts) */
  function Glue(sep: string, parts: seq<string>): string {
    if parts == [] then "" else if |parts| == 1 then parts[0] else parts[0] + sep + Glue(sep, parts[1..])
  }

  predicate StandsAt(s: string, sep: string, k: nat) {
    k + |sep| <= |s| && s[k..k + |sep|] == sep
  }

  /** Before its end the part does not even begin a separator that runs on into the next one. */
  predicate Separable(part: string, sep: string) {
    forall k: nat | k < |part| :: !StandsAt(part + sep, sep, k)
  }

  lemma {:induction false} FindFirst(s: string, sep: string, i: nat, at: nat)
    requires sep != "" && i <= at && StandsAt(s, sep, at)
    requires forall k: nat | i <= k < at :: !StandsAt(s, sep, k)
    ensures Find(s, sep, i) == Some(at)
    decreases at - i
  {
    if i < at {
      assert !StandsAt(s, sep, i);
      FindFirst(s, sep, i + 1, at);
    }
  }

  lemma {:induction false} FindNowhere(s: string, sep: string, i: nat)
    requires sep != "" && i <= |s| && forall k: nat | i <= k :: !StandsAt(s, sep, k)
    ensures Find(s, sep, i) == None
    decreases |s| - i
  {
    assert !StandsAt(s, sep, i);
    if i + |sep| <= |s| {
      FindNowhere(s, sep, i + 1);
    }
  }

  lemma FindAfterPart(part: string, sep: string, rest: string)
    requires sep != "" && Separable(part, sep)
    ensures Find(part + sep + rest, sep, 0) == Some(|part|)
    ensures Find(part, sep, 0) == None
  {
    var s := part + sep + rest;
    forall k: nat | k < |part| ensures !StandsAt(s, sep, k) {
      assert !StandsAt(part + sep, sep, k);
      assert s[k..k + |sep|] == (part + sep)[k..k + |sep|];
    }
    assert s[|part|..|part| + |sep|] == sep;
    FindFirst(s, sep, 0, |part|);
    forall k: nat ensures !StandsAt(part, sep, k) {
      if k + |sep| <= |part| {
        assert !StandsAt(part + sep, sep, k);
        assert part[k..k + |sep|] == (part + sep)[k..k + |sep|];
      }
    }
    FindNowhere(part, sep, 0);
  }

  /** Splitting what was glued gives the parts back. */
  lemma {:induction false} SplitReadsBack(sep: string, parts: seq<string>)
    requires sep != "" && parts != [] && forall i | 0 <= i < |parts| :: Separable(parts[i], sep)
    ensures Split(Glue(sep, parts), sep) == parts
  {
    var first := parts[0];
    if |parts| == 1 {
      FindAfterPart(first, sep, "");
    } else {
      var rest := Glue(sep, parts[1..]);
      var s := first + sep + rest;
      FindAfterPart(first, sep, rest);
      SplitReadsBack(sep, parts[1..]);
      assert s[..|first|] == first && s[|first| + |sep|..] == rest;
      assert parts == [first] + parts[1..];
    }
  }

  /** Gluing what was split gives the text back. */
  lemma {:induction false} SplitGlues(s: string, sep: string)
    requires sep != ""
    ensures Glue(sep, Split(s, sep)) == s
    decreases |s|
  {
    var r := Find(s, sep, 0);
    if r.Some? {
      var i := r.value;
      SplitGlues(s[i + |sep|..], sep);
      var rest := Split(s[i + |sep|..], sep);
      assert ([s[..i]] + rest)[1..] == rest;
      assert s == s[..i] + s[i..i + |sep|] + s[i + |sep|..];
    }
  }

  // ---- Stripping ----

  predicate AllSpace(s: string) {
    forall i | 0 <= i < |s| :: IsSpace(s[i])
  }

  /** Stripping takes white space off both ends and nothing else. */
  lemma {:induction false} StripIs(s: string) returns (before: string, after: string)
    ensures s == before + Strip(s) + after && AllSpace(before) && AllSpace(after)
    ensures Strip(s) != "" ==> !IsSpace(Strip(s)[0]) && !IsSpace(Strip(s)[|Strip(s)| - 1])
    decreases |s|
  {
    before, after := "", "";
    if s == "" {
    } else if IsSpace(s[0]) {
      before, after := StripIs(s[1..]);
      SpaceBefore(s, before, after);
      before := [s[0]] + before;
    } else if IsSpace(s[|s| - 1]) {
      before, after := StripIs(s[..|s| - 1]);
      SpaceAfter(s, before, after);
      after := after + [s[|s| - 1]];
    } else {
      assert "" + s == s && s + "" == s;
    }
  }

  lemma StripStep(s: string)
    requires s != ""
    ensures IsSpace(s[0]) ==> Strip(s) == Strip(s[1..])
    ensures !IsSpace(s[0]) && IsSpace(s[|s| - 1]) ==> Strip(s) == Strip(s[..|s| - 1])
  {
    hide IsSpace;
  }

  lemma AllSpaceMore(a: string, c: char)
    requires AllSpace(a) && IsSpace(c)
    ensures AllSpace([c] + a) && AllSpace(a + [c])
  {
    hide IsSpace;
  }

  lemma SpaceBefore(s: string, before: string, after: string)
    requires s != "" && IsSpace(s[0]) && s[1..] == before + Strip(s[1..]) + after && AllSpace(before)
    ensures Strip(s) == Strip(s[1..]) && s == ([s[0]] + before) + Strip(s) + after && AllSpace([s[0]] + before)
  {
    StripStep(s);
    AllSpaceMore(before, s[0]);
    hide *;
    assert s == [s[0]] + s[1..];
    Assoc([s[0]], before, Strip(s));
    Assoc([s[0]], before + Strip(s), after);
  }

  lemma SpaceAfter(s: string, before: string, after: string)
    requires s != "" && !IsSpace(s[0]) && IsSpace(s[|s| - 1])
    requires s[..|s| - 1] == before + Strip(s[..|s| - 1]) + after && AllSpace(after)
    ensures Strip(s) == Strip(s[..|s| - 1]) && s == before + Strip(s) + (after + [s[|s| - 1]]) && AllSpace(after + [s[|s| - 1]])
  {
    StripStep(s);
    AllSpaceMore(after, s[|s| - 1]);
    hide *;
    assert s == s[..|s| - 1] + [s[|s| - 1]];
    Assoc(before + Strip(s), after, [s[|s| - 1]]);
  }

  lemma {:induction false} StrippedTrimmed(parts: seq<string>)
    requires forall i | 0 <= i < |parts| :: Trim(parts[i])
    ensures Stripped(parts) == parts
  {
    if parts != [] {
      StripTrims(parts[0]);
      StrippedTrimmed(parts[1..]);
      assert parts == [parts[0]] + parts[1..];
    }
  }

  // ---- Paragraphs ----

  /** Trimmed, and without a blank line. */
  predicate IsParagraph(p: string) {
    Trim(p) && forall k | 0 <= k < |p| - 1 :: !(p[k] == '\n' && p[k + 1] == '\n')
  }

  lemma ParagraphSeparable(p: string)
    requires IsParagraph(p)
    ensures Separable(p, "\n\n")
  {
    forall k: nat | k < |p| ensures !StandsAt(p + "\n\n", "\n\n", k) {
      var two := (p + "\n\n")[k..k + 2];
      assert two[0] == p[k];
      assert k < |p| - 1 ==> two[1] == p[k + 1];
      assert k == |p| - 1 ==> !IsSpace(two[0]);
      assert IsSpace('\n');
    }
  }

  /** Paragraphs with blank lines between them are found again. */
  lemma {:induction false} ParagraphsReadBack(ps: seq<string>)
    requires forall i | 0 <= i < |ps| :: IsParagraph(ps[i])
    ensures Paragraphs(Glue("\n\n", ps)) == ps
  {
    if ps == [] {
      assert Find("", "\n\n", 0) == None;
      assert Split("", "\n\n") == [""];
      assert Stripped([""]) == Stripped([""][1..]);
    } else {
      forall i | 0 <= i < |ps| ensures Separable(ps[i], "\n\n") {
        ParagraphSeparable(ps[i]);
      }
      SplitReadsBack("\n\n", ps);
      StrippedTrimmed(ps);
    }
  }

  lemma {:induction false} ShortChunks(ps: seq<string>, maxChars: int, n: nat)
    requires n <= |ps| && forall i | 0 <= i < |ps| :: |ps[i]| <= maxChars
    ensures ChunksUpTo(ps, maxChars, n) == ps[..n]
  {
    if n > 0 {
      ShortChunks(ps, maxChars, n - 1);
      assert ps[..n] == ps[..n - 1] + [ps[n - 1]];
    }
  }

  /** Paragraphs of at most max_chars each are the chunks. */
  lemma {:induction false} ShortParagraphsStayWhole(ps: seq<string>, maxChars: int)
    requires forall i | 0 <= i < |ps| :: IsParagraph(ps[i]) && |ps[i]| <= maxChars
    ensures Chunks(Glue("\n\n", ps), maxChars) == ps
  {
    ParagraphsReadBack(ps);
    ShortChunks(ps, maxChars, |ps|);
    assert ps[..|ps|] == ps;
  }

  // ---- Sentences ----

  /** Trimmed, on one line, and with no full stop and space inside. */
  predicate IsSentence(s: string) {
    && Trim(s) && (forall k | 0 <= k < |s| :: s[k] != '\n')
    && forall k | 0 <= k < |s| - 1 :: !(s[k] == '.' && s[k + 1] == ' ')
  }

  lemma SentenceSeparable(s: string)
    requires IsSentence(s)
    ensures Separable(s, ". ")
  {
    forall k: nat | k < |s| ensures !StandsAt(s + ". ", ". ", k) {
      var two := (s + ". ")[k..k + 2];
      assert two[0] == s[k];
      assert k < |s| - 1 ==> two[1] == s[k + 1];
      assert k == |s| - 1 ==> two[1] == '.';
    }
  }

  lemma {:induction false} GlueLines(sep: string, parts: seq<string>)
    requires (forall k | 0 <= k < |sep| :: sep[k] != '\n') && forall i, k | 0 <= i < |parts| && 0 <= k < |parts[i]| :: parts[i][k] != '\n'
    ensures forall k | 0 <= k < |Glue(sep, parts)| :: Glue(sep, parts)[k] != '\n'
  {
    if |parts| > 1 {
      GlueLines(sep, parts[1..]);
    }
  }

  /** Sentences with full stop and space between them are found again. */
  lemma {:induction false} SentencesReadBack(ss: seq<string>)
    requires ss != [] && forall i | 0 <= i < |ss| :: IsSentence(ss[i])
    ensures Sentences(Glue(". ", ss)) == ss
  {
    var text := Glue(". ", ss);
    GlueLines(". ", ss);
    assert SpacesForNewlines(text) == text;
    forall i | 0 <= i < |ss| ensures Separable(ss[i], ". ") {
      SentenceSeparable(ss[i]);
    }
    SplitReadsBack(". ", ss);
    StrippedTrimmed(ss);
  }

  /** A line break counts as a space. */
  lemma {:induction false} LineBreaksAreSpaces(a: string, b: string)
    requires |a| == |b| && forall k | 0 <= k < |a| :: b[k] == if a[k] == '\n' then ' ' else a[k]
    ensures Sentences(a) == Sentences(b)
  {
    assert SpacesForNewlines(a) == b && SpacesForNewlines(b) == b;
  }

  /** A sentence that ends in ".", "!" or "?" is packed as it is, and any other with a full stop. */
  lemma {:induction false} PieceIs(s: string)
    ensures Piece(s) == if s != "" && (s[|s| - 1] == '.' || s[|s| - 1] == '!' || s[|s| - 1] == '?') then s else s + "."
  {
  }

  /** Pieces are joined by single spaces. */
  lemma {:induction false} JoinIs(parts: seq<string>)
    ensures Join(parts) == Glue(" ", parts)
  {
    if |parts| > 1 {
      JoinIs(parts[1..]);
    }
  }

  lemma OneParagraph(p: string, maxChars: int)
    requires IsParagraph(p)
    ensures Chunks(p, maxChars) == ParagraphChunks(p, maxChars)
  {
    ParagraphsReadBack([p]);
    assert Glue("\n\n", [p]) == p;
    var chunks := ParagraphChunks(p, maxChars);
    assert ChunksUpTo([p], maxChars, 0) == [];
    assert [] + chunks == chunks;
    hide ParagraphChunks, Paragraphs;
  }

  /** A long paragraph of sentences is packed from them, each ended: its chunks are groups of these pieces. */
  lemma {:induction false} LongParagraphIsPacked(ss: seq<string>, maxChars: int) returns (pieces: seq<string>)
    requires ss != [] && (forall i | 0 <= i < |ss| :: IsSentence(ss[i]))
    requires IsParagraph(Glue(". ", ss)) && |Glue(". ", ss)| > maxChars
    ensures |pieces| == |ss| && Chunks(Glue(". ", ss), maxChars) == JoinEach(Greedy(pieces, maxChars))
    ensures forall i | 0 <= i < |ss| ::
      pieces[i] == if ss[i] != "" && (ss[i][|ss[i]| - 1] == '.' || ss[i][|ss[i]| - 1] == '!' || ss[i][|ss[i]| - 1] == '?')
                   then ss[i] else ss[i] + "."
  {
    var text := Glue(". ", ss);
    SentencesReadBack(ss);
    OneParagraph(text, maxChars);
    pieces := Pieces(ss);
    assert ParagraphChunks(text, maxChars) == JoinEach(Greedy(Pieces(Sentences(text)), maxChars));
    hide *;
    PiecesAre(ss);
  }

  lemma PiecesAre(ss: seq<string>)
    ensures |Pieces(ss)| == |ss|
    ensures forall i | 0 <= i < |ss| ::
      Pieces(ss)[i] == if ss[i] != "" && (ss[i][|ss[i]| - 1] == '.' || ss[i][|ss[i]| - 1] == '!' || ss[i][|ss[i]| - 1] == '?')
                       then ss[i] else ss[i] + "."
  {
    hide Piece;
    forall i | 0 <= i < |ss| {
      PieceIs(ss[i]);
    }
  }
}
