/**
 * The text side of document ingestion (apps/server/services/document_processor.py):
 * cleaning extracted text, classifying its language and turning the splitter's pieces
 * into chunks with positional metadata. The text splitter, PDF extraction and UTF-8
 * decoding are foreign libraries and are passed in as functions.
 */
module DocumentProcessor {
  import opened Text

  datatype Language = Bn | En | Mixed
  {
    /** The code the server stores and returns ("bn", "en", "mixed"). */
    function Code(): string
    {
      match this
      case Bn => "bn"
      case En => "en"
      case Mixed => "mixed"
    }
  }

  const Danda: char := '\U{0964}'

  // ---------------------------------------------------------------------------
  // clean_bengali_text: a fixed pipeline of whole-string rewrites
  // ---------------------------------------------------------------------------

  /** The character class kept by the second rewrite of the cleaner. */
  predicate IsAllowed(c: char)
  {
    IsBengali(c) || (0x0964 <= c as int <= 0x0965) || IsAsciiLetter(c) || IsAsciiDigit(c)
    || IsSpace(c) || c in ",;:.!?()\"'-"
  }

  predicate AllAllowed(s: string) { forall i :: 0 <= i < |s| ==> IsAllowed(s[i]) }

  /** The only whitespace character of `s` is the plain space U+0020. */
  predicate OnlyPlainSpaces(s: string) { forall i :: 0 <= i < |s| && IsSpace(s[i]) ==> s[i] == ' ' }

  /** Every occurrence of `m` in `s` is directly followed by a space. */
  predicate SpaceAfterEach(s: string, m: char)
  {
    forall i :: 0 <= i < |s| && s[i] == m ==> i + 1 < |s| && s[i + 1] == ' '
  }

  /** Rewrite 1: every maximal whitespace run becomes one space. */
  function CollapseWhitespace(s: string): (r: string)
    ensures OnlyPlainSpaces(r)
    decreases |s|
  {
    if s == [] then []
    else if IsSpace(s[0]) then
      var k := LeadingSpaces(s);
      " " + CollapseWhitespace(s[k..])
    else [s[0]] + CollapseWhitespace(s[1..])
  }

  /** Rewrite 2: drop every character outside the allowed class. */
  function RemoveDisallowed(s: string): (r: string)
    ensures AllAllowed(r)
  {
    if s == [] then []
    else
      var rest := RemoveDisallowed(s[1..]);
      if IsAllowed(s[0]) then [s[0]] + rest else rest
  }

  /** Dropping characters introduces no new whitespace character. */
  lemma {:induction false} RemoveDisallowedKeepsPlainSpaces(s: string)
    requires OnlyPlainSpaces(s)
    ensures OnlyPlainSpaces(RemoveDisallowed(s))
  {
    if s != [] {
      assert OnlyPlainSpaces(s[1..]) by {
        forall i | 0 <= i < |s[1..]| && IsSpace(s[1..][i]) ensures s[1..][i] == ' ' {
          assert s[1..][i] == s[i + 1];
        }
      }
      RemoveDisallowedKeepsPlainSpaces(s[1..]);
    }
  }

  /**
   * Rewrites 3 and 4 (`\s*m\s*` replaced by `m` and one space), scanning left to right
   * as the regular-expression engine does: at each position, a run of whitespace
   * followed by `m` and the whitespace after it is replaced; otherwise one character
   * is copied and the scan moves on.
   */
  function PadMark(s: string, m: char): (r: string)
    requires !IsSpace(m)
    decreases |s|
  {
    if s == [] then []
    else
      var k := LeadingSpaces(s);
      if k < |s| && s[k] == m then
        var rest := s[k + 1..];
        [m, ' '] + PadMark(rest[LeadingSpaces(rest)..], m)
      else
        [s[0]] + PadMark(s[1..], m)
  }

  /** The text the padding scan continues with, and what it emits before it. */
  lemma {:induction false} PadMarkStep(s: string, m: char) returns (head: string, tail: string)
    requires !IsSpace(m) && s != []
    ensures PadMark(s, m) == head + PadMark(tail, m)
    ensures |tail| < |s| && tail == s[|s| - |tail|..]
    ensures head == [m, ' '] || (head == [s[0]] && s[0] != m)
  {
    var k := LeadingSpaces(s);
    if k < |s| && s[k] == m {
      var rest := s[k + 1..];
      tail := rest[LeadingSpaces(rest)..];
      head := [m, ' '];
    } else {
      assert s[0] != m by { if k > 0 { assert IsSpace(s[0]); } }
      tail := s[1..];
      head := [s[0]];
    }
  }

  lemma {:induction false} SpaceAfterEachCons(head: string, t: string, m: char)
    requires SpaceAfterEach(t, m)
    requires head == [m, ' '] || (|head| == 1 && head[0] != m)
    requires m != ' '
    ensures SpaceAfterEach(head + t, m)
  {
    var r := head + t;
    forall i | 0 <= i < |r| && r[i] == m ensures i + 1 < |r| && r[i + 1] == ' ' {
      if i >= |head| { assert r[i] == t[i - |head|] && r[i + 1] == t[i + 1 - |head|]; }
    }
  }

  /** After padding, `m` is always followed by a space. */
  lemma {:induction false} PadMarkSpacesAfter(s: string, m: char)
    requires !IsSpace(m)
    ensures SpaceAfterEach(PadMark(s, m), m)
    decreases |s|
  {
    if s != [] {
      var head, tail := PadMarkStep(s, m);
      PadMarkSpacesAfter(tail, m);
      SpaceAfterEachCons(head, PadMark(tail, m), m);
    }
  }

  lemma {:induction false} CharsConcat(a: string, b: string)
    ensures AllAllowed(a) && AllAllowed(b) ==> AllAllowed(a + b)
    ensures OnlyPlainSpaces(a) && OnlyPlainSpaces(b) ==> OnlyPlainSpaces(a + b)
  {
    assert forall i :: 0 <= i < |a + b| ==> (a + b)[i] == if i < |a| then a[i] else b[i - |a|];
  }

  lemma {:induction false} CharsSuffix(s: string, j: nat)
    requires j <= |s|
    ensures AllAllowed(s) ==> AllAllowed(s[j..])
    ensures OnlyPlainSpaces(s) ==> OnlyPlainSpaces(s[j..])
  {
    assert forall i :: 0 <= i < |s| - j ==> s[j..][i] == s[j + i];
  }

  /** Padding inserts only `m` and plain spaces, so an allowed text stays allowed. */
  lemma {:induction false} PadMarkKeepsAllowed(s: string, m: char)
    requires IsAllowed(m) && !IsSpace(m) && AllAllowed(s)
    ensures AllAllowed(PadMark(s, m))
    decreases |s|
  {
    if s != [] {
      var head, tail := PadMarkStep(s, m);
      CharsSuffix(s, |s| - |tail|);
      PadMarkKeepsAllowed(tail, m);
      assert AllAllowed(head) by {
        if head != [m, ' '] { assert head[0] == s[0]; }
      }
      CharsConcat(head, PadMark(tail, m));
    }
  }

  /** Padding inserts no whitespace other than the plain space. */
  lemma {:induction false} PadMarkKeepsPlainSpaces(s: string, m: char)
    requires !IsSpace(m) && OnlyPlainSpaces(s)
    ensures OnlyPlainSpaces(PadMark(s, m))
    decreases |s|
  {
    if s != [] {
      var head, tail := PadMarkStep(s, m);
      CharsSuffix(s, |s| - |tail|);
      PadMarkKeepsPlainSpaces(tail, m);
      assert OnlyPlainSpaces(head) by {
        if head != [m, ' '] { assert head[0] == s[0]; }
      }
      CharsConcat(head, PadMark(tail, m));
    }
  }

  /** Rewrite 5: every run of newlines becomes one newline. */
  function CollapseNewlines(s: string): string
  {
    if s == [] then []
    else if |s| >= 2 && s[0] == '\n' && s[1] == '\n' then CollapseNewlines(s[1..])
    else [s[0]] + CollapseNewlines(s[1..])
  }

  /** Rewrite 5 changes nothing in a text without newlines, which is all it ever sees. */
  lemma {:induction false} CollapseNewlinesIdentity(s: string)
    requires forall i :: 0 <= i < |s| ==> s[i] != '\n'
    ensures CollapseNewlines(s) == s
  {
    if s != [] {
      CollapseNewlinesIdentity(s[1..]);
      assert [s[0]] + s[1..] == s;
    }
  }

  /** `DocumentProcessor.clean_bengali_text`: the five rewrites in order, then `strip`. */
  function CleanBengaliText(text: string): string
  {
    Strip(CollapseNewlines(PadMark(PadMark(RemoveDisallowed(CollapseWhitespace(text)), Danda), ',')))
  }

  /**
   * A cleaned text has no whitespace at either end, no whitespace but plain spaces, only
   * allowed characters, and a space after every comma that is not its last character.
   */
  lemma {:induction false} CleanedTextShape(text: string)
    ensures var r := CleanBengaliText(text);
      (r != [] ==> !IsSpace(r[0]) && !IsSpace(r[|r| - 1]))
      && OnlyPlainSpaces(r)
      && AllAllowed(r)
      && forall i :: 0 <= i < |r| - 1 && r[i] == ',' ==> r[i + 1] == ' '
  {
    var s1 := CollapseWhitespace(text);
    var s2 := RemoveDisallowed(s1);
    var s3 := PadMark(s2, Danda);
    var s4 := PadMark(s3, ',');
    RemoveDisallowedKeepsPlainSpaces(s1);
    PadMarkKeepsAllowed(s2, Danda);
    PadMarkKeepsPlainSpaces(s2, Danda);
    PadMarkKeepsAllowed(s3, ',');
    PadMarkKeepsPlainSpaces(s3, ',');
    PadMarkSpacesAfter(s3, ',');
    assert forall i :: 0 <= i < |s4| ==> s4[i] != '\n' by {
      assert IsSpace('\n');
    }
    CollapseNewlinesIdentity(s4);
    StripKeeps(s4);
  }

  /** The stripped text is a slice, so every property of single characters and neighbours carries over. */
  lemma {:induction false} StripKeeps(s: string)
    requires AllAllowed(s) && OnlyPlainSpaces(s) && SpaceAfterEach(s, ',')
    ensures var r := Strip(s);
      AllAllowed(r) && OnlyPlainSpaces(r) && forall i :: 0 <= i < |r| - 1 && r[i] == ',' ==> r[i + 1] == ' '
  {
    var r := Strip(s);
    var a := LeadingSpaces(s);
    assert forall i :: 0 <= i < |r| ==> r[i] == s[a + i];
  }

  lemma {:induction false} CleanOnceCollapse()
    ensures CollapseWhitespace("a @ b") == "a @ b"
  {
    assert CollapseWhitespace("b") == "b";
    assert CollapseWhitespace(" b") == " b";
    assert CollapseWhitespace("@ b") == "@ b";
    assert CollapseWhitespace(" @ b") == " @ b";
  }

  lemma {:induction false} CleanOnceRemove()
    ensures RemoveDisallowed("a @ b") == "a  b"
  {
    assert RemoveDisallowed("b") == "b";
    assert RemoveDisallowed(" b") == " b";
    assert RemoveDisallowed("@ b") == " b";
    assert RemoveDisallowed(" @ b") == "  b";
  }

  /** The last three rewrites and `strip` leave a text alone that has no mark, no newline and no outer space. */
  lemma {:induction false} FinishUnchanged(s: string)
    requires forall i :: 0 <= i < |s| ==> s[i] != Danda && s[i] != ',' && s[i] != '\n'
    requires s != [] && !IsSpace(s[0]) && !IsSpace(s[|s| - 1])
    ensures Strip(CollapseNewlines(PadMark(PadMark(s, Danda), ','))) == s
  {
    PadPlain(s, Danda);
    PadPlain(s, ',');
    CollapseNewlinesIdentity(s);
    StripUnchanged(s);
  }

  /** The text "a @ b" cleaned once. */
  lemma {:induction false} CleanOnce()
    ensures CleanBengaliText("a @ b") == "a  b"
  {
    CleanOnceCollapse();
    CleanOnceRemove();
    CleanOnceFinish();
  }

  lemma {:induction false} CleanOnceFinish()
    ensures Strip(CollapseNewlines(PadMark(PadMark("a  b", Danda), ','))) == "a  b"
  {
    FinishUnchanged("a  b");
  }

  /** Padding changes nothing in a text without the mark. */
  lemma {:induction false} PadPlain(s: string, m: char)
    requires !IsSpace(m) && forall i :: 0 <= i < |s| ==> s[i] != m
    ensures PadMark(s, m) == s
    decreases |s|
  {
    if s != [] {
      var k := LeadingSpaces(s);
      assert !(k < |s| && s[k] == m);
      PadPlain(s[1..], m);
      assert [s[0]] + s[1..] == s;
    }
  }

  lemma {:induction false} CleanTwiceCollapse()
    ensures CollapseWhitespace("a  b") == "a b"
  {
    assert CollapseWhitespace("b") == "b";
    assert LeadingSpaces("  b") == 2;
    assert ("  b")[2..] == "b";
    assert CollapseWhitespace("  b") == " b";
  }

  lemma {:induction false} CleanTwiceRemove()
    ensures RemoveDisallowed("a b") == "a b"
  {
    assert RemoveDisallowed("b") == "b";
    assert RemoveDisallowed(" b") == " b";
  }

  /** The text "a  b" cleaned, which is what cleaning "a @ b" a second time gives. */
  lemma {:induction false} CleanTwice()
    ensures CleanBengaliText("a  b") == "a b"
  {
    CleanTwiceCollapse();
    CleanTwiceRemove();
    CleanTwiceFinish();
  }

  lemma {:induction false} CleanTwiceFinish()
    ensures Strip(CollapseNewlines(PadMark(PadMark("a b", Danda), ','))) == "a b"
  {
    FinishUnchanged("a b");
  }

  /**
   * The cleaner is not idempotent: removing a disallowed character can leave two spaces
   * side by side, and only a second pass collapses them.
   */
  lemma {:induction false} CleanIsNotIdempotent()
    ensures CleanBengaliText(CleanBengaliText("a @ b")) != CleanBengaliText("a @ b")
  {
    CleanOnce();
    CleanTwice();
  }

  // ---------------------------------------------------------------------------
  // detect_language
  // ---------------------------------------------------------------------------

  /** Bengali characters and ASCII letters: the characters the classifier looks at. */
  function ClassifiedCount(text: string): nat
  {
    CountBengali(text) + CountAsciiLetters(text)
  }

  /** The share of Bengali characters among the classified ones (0 when there are none). */
  function BengaliShare(text: string): real
  {
    if ClassifiedCount(text) == 0 then 0.0
    else (CountBengali(text) as real) / (ClassifiedCount(text) as real)
  }

  lemma {:induction false} RatioAbove(b: int, t: int, p: int, q: int)
    requires t > 0 && q > 0
    ensures (b as real) / (t as real) > (p as real) / (q as real) <==> b * q > p * t
  {
    var x := (b as real) / (t as real);
    var y := (p as real) / (q as real);
    assert x * (t as real) == b as real;
    assert y * (q as real) == p as real;
    assert (b * q) as real == x * (t as real) * (q as real);
    assert (p * t) as real == y * (q as real) * (t as real);
    if x > y {
      assert x * ((t * q) as real) > y * ((t * q) as real);
    }
    if b * q > p * t {
      assert x * ((t * q) as real) > y * ((t * q) as real);
    }
  }

  /**
   * `DocumentProcessor.detect_language`. The thresholds are compared by cross-multiplying
   * the integer counts; the contract states them on the share itself.
   */
  function DetectLanguage(text: string): (r: Language)
    ensures ClassifiedCount(text) == 0 ==> r == En
    ensures ClassifiedCount(text) > 0 ==>
              (r == Bn <==> BengaliShare(text) > 0.7)
              && (r == En <==> BengaliShare(text) < 0.3)
              && (r == Mixed <==> 0.3 <= BengaliShare(text) <= 0.7)
  {
    var bn := CountBengali(text);
    var total := ClassifiedCount(text);
    if total == 0 then En
    else
      RatioAbove(bn, total, 7, 10);
      RatioAbove(3, 10, bn, total);
      if 10 * bn > 7 * total then Bn
    else if 10 * bn < 3 * total then En
    else Mixed
  }

  /** A text with no Bengali character and no ASCII letter (digits, punctuation, "") is English. */
  lemma {:induction false} NoLettersIsEnglish(text: string)
    requires forall i :: 0 <= i < |text| ==> !IsBengali(text[i]) && !IsAsciiLetter(text[i])
    ensures DetectLanguage(text) == En
  {
    NoneCounted(text);
  }

  lemma {:induction false} NoneCounted(text: string)
    requires forall i :: 0 <= i < |text| ==> !IsBengali(text[i]) && !IsAsciiLetter(text[i])
    ensures ClassifiedCount(text) == 0
  {
    if text != [] { NoneCounted(text[..|text| - 1]); }
  }

  /** A share of exactly 7/10 or exactly 3/10 is "mixed": both thresholds are strict. */
  lemma {:induction false} ThresholdsAreMixed(text: string)
    requires ClassifiedCount(text) > 0
    requires 10 * CountBengali(text) == 7 * ClassifiedCount(text) || 10 * CountBengali(text) == 3 * ClassifiedCount(text)
    ensures DetectLanguage(text) == Mixed
  {
  }

  // ---------------------------------------------------------------------------
  // chunk_document
  // ---------------------------------------------------------------------------

  /** One entry of the PDF metadata's `pages` list: the 1-based page number and that page's text. */
  datatype PageText = PageText(page: nat, text: string)

  /**
   * The metadata extraction attaches to a document: the PDF's page count, per-page texts and
   * document properties, or the file name and type of a text file.
   */
  datatype SourceMetadata =
    | PdfMetadata(pageCount: nat, pages: seq<PageText>, title: string, author: string, subject: string, creator: string)
    | TextMetadata(filename: string, fileType: string)

  /** `metadata.get("page_count", default)`. */
  function PageCountOr(m: SourceMetadata, default: nat): nat
  {
    match m
    case PdfMetadata(n, _, _, _, _, _) => n
    case TextMetadata(_, _) => default
  }

  /** `{**metadata, "chunk_index": …, "language": …, "document_title": …, "chunk_length": …, "word_count": …}`. */
  datatype ChunkMetadata = ChunkMetadata(
    source: SourceMetadata,
    chunkIndex: nat,
    language: Language,
    documentTitle: string,
    chunkLength: nat,
    wordCount: nat)

  /** A LangChain `Document`: page content and metadata. */
  datatype Chunk = Chunk(pageContent: string, metadata: ChunkMetadata)

  const MinChunkLength: nat := 50

  /** A splitter piece is kept when its stripped length reaches 50. */
  predicate LongEnough(piece: string) { |Strip(piece)| >= MinChunkLength }

  function MakeChunk(piece: string, index: nat, source: SourceMetadata, language: Language, title: string): Chunk
  {
    Chunk(piece, ChunkMetadata(source, index, language, title, |piece|, |Words(piece)|))
  }

  /**
   * The chunks made from the first `n` splitter pieces, keeping the pieces `keep` accepts
   * (`chunk_document` keeps the `LongEnough` ones).
   */
  function KeptChunks(pieces: seq<string>, n: nat, keep: string -> bool, source: SourceMetadata, language: Language, title: string): seq<Chunk>
    requires n <= |pieces|
  {
    if n == 0 then []
    else
      KeptChunks(pieces, n - 1, keep, source, language, title)
      + (if keep(pieces[n - 1]) then [MakeChunk(pieces[n - 1], n - 1, source, language, title)] else [])
  }

  /** A chunk made from the piece at its own index, with the shared language, title and source metadata. */
  predicate IsChunkOf(c: Chunk, pieces: seq<string>, n: nat, keep: string -> bool, source: SourceMetadata, language: Language, title: string)
  {
    var i := c.metadata.chunkIndex;
    i < n <= |pieces| && keep(pieces[i]) && c == MakeChunk(pieces[i], i, source, language, title)
  }

  /**
   * Every kept chunk is an accepted splitter piece at its own index, with the shared
   * language and title, its own length and word count; indices strictly increase.
   */
  lemma {:induction false} KeptChunksAreIndexedPieces(pieces: seq<string>, n: nat, keep: string -> bool, source: SourceMetadata, language: Language, title: string)
    requires n <= |pieces|
    ensures var r := KeptChunks(pieces, n, keep, source, language, title);
      |r| <= n
      && (forall k :: 0 <= k < |r| ==> IsChunkOf(r[k], pieces, n, keep, source, language, title))
      && (forall k1, k2 :: 0 <= k1 < k2 < |r| ==> r[k1].metadata.chunkIndex < r[k2].metadata.chunkIndex)
  {
    if n > 0 {
      KeptChunksAreIndexedPieces(pieces, n - 1, keep, source, language, title);
      var prev := KeptChunks(pieces, n - 1, keep, source, language, title);
      var last := if keep(pieces[n - 1]) then [MakeChunk(pieces[n - 1], n - 1, source, language, title)] else [];
      var r := KeptChunks(pieces, n, keep, source, language, title);
      assert r == prev + last;
      forall k | 0 <= k < |r| ensures IsChunkOf(r[k], pieces, n, keep, source, language, title) {
        if k < |prev| { assert r[k] == prev[k]; }
      }
    }
  }

  /** No accepted piece is dropped. */
  lemma {:induction false} KeptChunksComplete(pieces: seq<string>, n: nat, keep: string -> bool, source: SourceMetadata, language: Language, title: string, i: nat)
    requires i < n <= |pieces| && keep(pieces[i])
    ensures MakeChunk(pieces[i], i, source, language, title) in KeptChunks(pieces, n, keep, source, language, title)
  {
    var r := KeptChunks(pieces, n, keep, source, language, title);
    var prev := KeptChunks(pieces, n - 1, keep, source, language, title);
    var last := if keep(pieces[n - 1]) then [MakeChunk(pieces[n - 1], n - 1, source, language, title)] else [];
    assert r == prev + last;
    if i == n - 1 {
      assert r[|prev|] == MakeChunk(pieces[i], i, source, language, title);
    } else {
      KeptChunksComplete(pieces, n - 1, keep, source, language, title, i);
    }
  }

  /** The chunks `chunk_document` returns for a text, a splitter and the document's metadata. */
  function ChunksOf(text: string, source: SourceMetadata, title: string, split: string -> seq<string>): seq<Chunk>
  {
    var cleaned := CleanBengaliText(text);
    var pieces := split(cleaned);
    KeptChunks(pieces, |pieces|, LongEnough, source, DetectLanguage(cleaned), title)
  }

  /**
   * Every chunk of a document carries the document's title and source metadata, is long
   * enough, and records its own length and whitespace word count.
   */
  lemma {:induction false} ChunksOfShape(text: string, source: SourceMetadata, title: string, split: string -> seq<string>)
    ensures var r := ChunksOf(text, source, title, split);
      forall k :: 0 <= k < |r| ==>
        r[k].metadata.documentTitle == title && r[k].metadata.source == source
        && LongEnough(r[k].pageContent)
        && r[k].metadata.chunkLength == |r[k].pageContent|
        && r[k].metadata.wordCount == |Words(r[k].pageContent)|
  {
    var cleaned := CleanBengaliText(text);
    var pieces := split(cleaned);
    KeptChunksAreIndexedPieces(pieces, |pieces|, LongEnough, source, DetectLanguage(cleaned), title);
  }

  /** `DocumentProcessor.chunk_document`; `split` is the recursive character splitter. */
  method ChunkDocument(text: string, source: SourceMetadata, title: string, split: string -> seq<string>)
    returns (documents: seq<Chunk>)
    ensures documents == ChunksOf(text, source, title, split)
  {
    var cleaned := CleanBengaliText(text);
    var language := DetectLanguage(cleaned);
    var chunks := split(cleaned);
    documents := MakeChunks(chunks, LongEnough, source, language, title);
  }

  /** The loop of `chunk_document`: one chunk per accepted piece, numbered by the piece's position. */
  method MakeChunks(chunks: seq<string>, keep: string -> bool, source: SourceMetadata, language: Language, title: string)
    returns (documents: seq<Chunk>)
    ensures documents == KeptChunks(chunks, |chunks|, keep, source, language, title)
  {
    documents := [];
    var i := 0;
    while i < |chunks|
      invariant 0 <= i <= |chunks|
      invariant documents == KeptChunks(chunks, i, keep, source, language, title)
    {
      var chunk := chunks[i];
      if keep(chunk) {
        var metadata := ChunkMetadata(source, i, language, title, |chunk|, |Words(chunk)|);
        documents := documents + [Chunk(chunk, metadata)];
      }
      i := i + 1;
    }
  }

  // ---------------------------------------------------------------------------
  // process_knowledge_base / process_uploaded_document
  // ---------------------------------------------------------------------------

  /**
   * What the PDF library reports of an opened document: the text of each page in order, and
   * the `title`, `author`, `subject` and `creator` properties ("" when absent).
   */
  datatype PdfFile = PdfFile(pageTexts: seq<string>, title: string, author: string, subject: string, creator: string)

  /** What `extract_text_from_pdf` returns: the joined text and the PDF metadata. */
  datatype Extracted = Extracted(content: string, metadata: SourceMetadata)

  /** `text_content` after the extraction loop: every page's text followed by a blank line. */
  function PdfText(pageTexts: seq<string>): string
    decreases |pageTexts|
  {
    if pageTexts == [] then "" else PdfText(pageTexts[..|pageTexts| - 1]) + pageTexts[|pageTexts| - 1] + "\n\n"
  }

  /** `page_texts` after the extraction loop. */
  function PageList(pageTexts: seq<string>): seq<PageText>
  {
    seq(|pageTexts|, i requires 0 <= i < |pageTexts| => PageText(i + 1, pageTexts[i]))
  }

  /** The result of `extract_text_from_pdf` for an opened document. */
  function PdfExtraction(f: PdfFile): Extracted
  {
    Extracted(PdfText(f.pageTexts), PdfMetadata(|f.pageTexts|, PageList(f.pageTexts), f.title, f.author, f.subject, f.creator))
  }

  /**
   * `DocumentProcessor.extract_text_from_pdf`: one pass over the pages, appending each page's
   * text to the content and a numbered entry to the page list.
   */
  method ExtractTextFromPdf(f: PdfFile) returns (e: Extracted)
    ensures e == PdfExtraction(f)
    ensures e.metadata.pageCount == |e.metadata.pages| == |f.pageTexts|
    ensures forall i :: 0 <= i < |f.pageTexts| ==> e.metadata.pages[i] == PageText(i + 1, f.pageTexts[i])
  {
    var textContent := "";
    var pageTexts: seq<PageText> := [];
    var pageNum := 0;
    while pageNum < |f.pageTexts|
      invariant 0 <= pageNum <= |f.pageTexts|
      invariant textContent == PdfText(f.pageTexts[..pageNum])
      invariant pageTexts == PageList(f.pageTexts[..pageNum])
    {
      assert f.pageTexts[..pageNum + 1][..pageNum] == f.pageTexts[..pageNum];
      var pageText := f.pageTexts[pageNum];
      pageTexts := pageTexts + [PageText(pageNum + 1, pageText)];
      textContent := textContent + pageText + "\n\n";
      pageNum := pageNum + 1;
    }
    assert f.pageTexts[..pageNum] == f.pageTexts;
    e := Extracted(textContent, PdfMetadata(|f.pageTexts|, pageTexts, f.title, f.author, f.subject, f.creator));
  }

  /** Every page's text occurs in the extracted content. */
  lemma {:induction false} PdfTextHasEveryPage(pageTexts: seq<string>, i: nat)
    requires i < |pageTexts|
    ensures Contains(PdfText(pageTexts), pageTexts[i])
    decreases |pageTexts|
  {
    var init := pageTexts[..|pageTexts| - 1];
    var last := pageTexts[|pageTexts| - 1];
    if i == |pageTexts| - 1 {
      ContainsPiece(PdfText(init), last, "\n\n");
    } else {
      assert pageTexts[i] == init[i];
      PdfTextHasEveryPage(init, i);
      ContainsPrefix(PdfText(init), last + "\n\n");
      assert PdfText(init) + (last + "\n\n") == PdfText(pageTexts);
      ContainsWithin(pageTexts[i], PdfText(init), PdfText(pageTexts));
    }
  }

  /** The extraction and splitting libraries the processor calls; `None` stands for an exception. */
  datatype Extractors = Extractors(
    openPdf: seq<Byte> -> Option<PdfFile>,
    decodeUtf8: seq<Byte> -> Option<string>,
    split: string -> seq<string>)

  /** The title the knowledge-base document's chunks carry. */
  const KnowledgeBaseTitle: string := "HSC26 Bangla 1st Paper"

  /**
   * `DocumentProcessor.process_knowledge_base`: the downloaded PDF (`None` when the download
   * failed) is extracted and chunked under the knowledge-base title.
   */
  function KnowledgeBaseChunks(downloaded: Option<seq<Byte>>, ex: Extractors): Result<seq<Chunk>>
  {
    match downloaded
    case None => Err("PDF download failed")
    case Some(bytes) =>
      match ex.openPdf(bytes)
      case None => Err("PDF extraction failed")
      case Some(f) => Ok(ChunksOf(PdfExtraction(f).content, PdfExtraction(f).metadata, KnowledgeBaseTitle, ex.split))
  }

  /** The processing itself, step by step. */
  method ProcessKnowledgeBase(downloaded: Option<seq<Byte>>, ex: Extractors) returns (r: Result<seq<Chunk>>)
    ensures r == KnowledgeBaseChunks(downloaded, ex)
    ensures downloaded.None? ==> r == Err("PDF download failed")
  {
    if downloaded.None? {
      return Err("PDF download failed");
    }
    var pdfFile := ex.openPdf(downloaded.value);
    if pdfFile.None? {
      return Err("PDF extraction failed");
    }
    var e := ExtractTextFromPdf(pdfFile.value);
    var chunks := ChunkDocument(e.content, e.metadata, KnowledgeBaseTitle, ex.split);
    r := Ok(chunks);
  }

  /**
   * `DocumentProcessor.process_uploaded_document`: a "pdf" type (in any letter case) goes
   * through PDF extraction, anything else is decoded as UTF-8 text.
   */
  function UploadedChunks(content: seq<Byte>, filename: string, fileType: string, ex: Extractors): Result<seq<Chunk>>
  {
    if Lower(fileType) == "pdf" then
      match ex.openPdf(content)
      case None => Err("PDF extraction failed")
      case Some(f) => Ok(ChunksOf(PdfExtraction(f).content, PdfExtraction(f).metadata, filename, ex.split))
    else
      match ex.decodeUtf8(content)
      case None => Err("UTF-8 decoding failed")
      case Some(text) => Ok(ChunksOf(text, TextMetadata(filename, fileType), filename, ex.split))
  }

  /** The processing itself, step by step. */
  method ProcessUploadedDocument(content: seq<Byte>, filename: string, fileType: string, ex: Extractors)
    returns (r: Result<seq<Chunk>>)
    ensures r == UploadedChunks(content, filename, fileType, ex)
  {
    if Lower(fileType) == "pdf" {
      var pdfFile := ex.openPdf(content);
      if pdfFile.None? {
        return Err("PDF extraction failed");
      }
      var e := ExtractTextFromPdf(pdfFile.value);
      var chunks := ChunkDocument(e.content, e.metadata, filename, ex.split);
      r := Ok(chunks);
    } else {
      var decoded := ex.decodeUtf8(content);
      if decoded.None? {
        return Err("UTF-8 decoding failed");
      }
      var chunks := ChunkDocument(decoded.value, TextMetadata(filename, fileType), filename, ex.split);
      r := Ok(chunks);
    }
  }
}
