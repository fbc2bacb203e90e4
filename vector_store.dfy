/**
 * The policy store: plain-text policy chunks ranked against a query by how
 * many lower-cased whitespace tokens they share with it. Documents are
 * string-valued dictionaries, as their declared type says.
 */
module VectorStore {
  import opened Wrappers
  import opened Text
  import opened Ranking

  type Document = map<string, string>

  datatype Chunk = Chunk(text: string, metadata: map<string, string>)

  /** The chunk a document becomes: its stripped text, with every other key as metadata; none for blank text. */
  function ChunkOf(doc: Document): Option<Chunk>
  {
    var text := Strip(if "text" in doc then doc["text"] else "");
    if text == "" then None else Some(Chunk(text, doc - {"text"}))
  }

  /** A document is stored iff its stripped text is non-blank; the other keys become the metadata. */
  lemma ChunkOfSpec(doc: Document)
    ensures var text := if "text" in doc then doc["text"] else "";
      (ChunkOf(doc).None? <==> IsBlank(text))
      && (ChunkOf(doc).Some? ==> ChunkOf(doc).value.text == Strip(text) && ChunkOf(doc).value.metadata.Keys == doc.Keys - {"text"})
  {
    StripBlank(if "text" in doc then doc["text"] else "");
  }

  /** The chunk of one document, as a list of at most one. */
  function ChunkList(doc: Document): seq<Chunk>
  {
    if ChunkOf(doc).Some? then [ChunkOf(doc).value] else []
  }

  /** The chunks `ingest` adds, in document order. */
  function Ingested(docs: seq<Document>): (r: seq<Chunk>)
    ensures |r| <= |docs|
  {
    if docs == [] then []
    else ChunkList(docs[0]) + Ingested(docs[1..])
  }

  /** Ingesting in two batches adds the same chunks as ingesting once. */
  lemma {:induction false} IngestedAppend(a: seq<Document>, b: seq<Document>)
    ensures Ingested(a + b) == Ingested(a) + Ingested(b)
  {
    if a == [] {
      assert a + b == b;
    } else {
      assert (a + b)[0] == a[0] && (a + b)[1..] == a[1..] + b;
      assert Ingested(a + b) == ChunkList(a[0]) + Ingested(a[1..] + b);
      IngestedAppend(a[1..], b);
      ConcatAssoc(ChunkList(a[0]), Ingested(a[1..]), Ingested(b));
    }
  }

  lemma IngestedStep(added: seq<Chunk>, docs: seq<Document>, i: nat)
    requires i < |docs|
    ensures added + Ingested(docs[i..]) == (added + ChunkList(docs[i])) + Ingested(docs[i + 1..])
  {
    assert docs[i..][1..] == docs[i + 1..];
    ConcatAssoc(added, ChunkList(docs[i]), Ingested(docs[i + 1..]));
  }

  /** Every stored chunk has non-blank text with no surrounding whitespace. */
  lemma {:induction false} IngestedStripped(docs: seq<Document>)
    ensures forall c :: c in Ingested(docs) ==> c.text != [] && Strip(c.text) == c.text
  {
    if docs != [] {
      IngestedStripped(docs[1..]);
      var doc := docs[0];
      StripIdempotent(if "text" in doc then doc["text"] else "");
    }
  }

  /** The lower-cased whitespace tokens of a text, as a set. */
  function Terms(s: string): set<string>
  {
    set t | t in SplitWhitespace(Lower(s))
  }

  /** The number of distinct query tokens the chunk contains. */
  function Score(query: string, c: Chunk): nat
  {
    |Terms(query) * Terms(c.text)|
  }

  /** The chunks sharing at least one token with the query, scored, in ingestion order. */
  function Matches(query: string, chunks: seq<Chunk>): (r: seq<Scored<Chunk>>)
    ensures |r| <= |chunks|
  {
    if chunks == [] then []
    else MatchOf(query, chunks[0]) + Matches(query, chunks[1..])
  }

  /** One chunk, scored, when it shares a token with the query. */
  function MatchOf(query: string, c: Chunk): seq<Scored<Chunk>>
  {
    if Score(query, c) > 0 then [Scored(Score(query, c), c)] else []
  }

  lemma MatchesStep(scored: seq<Scored<Chunk>>, query: string, cs: seq<Chunk>, i: nat)
    requires i < |cs|
    ensures scored + Matches(query, cs[i..]) == (scored + MatchOf(query, cs[i])) + Matches(query, cs[i + 1..])
  {
    assert cs[i..][1..] == cs[i + 1..];
    ConcatAssoc(scored, MatchOf(query, cs[i]), Matches(query, cs[i + 1..]));
  }

  /** A chunk is ranked iff it shares a token with the query, and it carries its own score. */
  lemma {:induction false} MatchesSpec(query: string, chunks: seq<Chunk>)
    ensures forall x :: x in Matches(query, chunks) <==> x.item in chunks && x.score == Score(query, x.item) && x.score > 0
  {
    if chunks != [] {
      MatchesSpec(query, chunks[1..]);
      assert forall c :: c in chunks <==> c == chunks[0] || c in chunks[1..];
    }
  }

  /** The best `topK` matches, highest score first, ties in ingestion order. */
  function Ranked(query: string, chunks: seq<Chunk>, topK: int): seq<Scored<Chunk>>
  {
    TopK(Matches(query, chunks), topK)
  }

  /** A result row: the metadata with the chunk text under "text". */
  function ResultRow(c: Chunk): (d: map<string, string>)
    ensures "text" in d && d["text"] == c.text && d.Keys == c.metadata.Keys + {"text"}
  {
    c.metadata["text" := c.text]
  }

  function ResultRows(ranked: seq<Scored<Chunk>>): (r: seq<map<string, string>>)
    ensures |r| == |ranked|
    ensures forall i :: 0 <= i < |r| ==> r[i] == ResultRow(ranked[i].item)
  {
    if ranked == [] then [] else [ResultRow(ranked[0].item)] + ResultRows(ranked[1..])
  }

  /** What `query` promises: the best `topK` of the positively scored chunks (`BestK`: the `[:topK]` length,
      highest first, each score's first chunks in ingestion order, nothing dropped that outscores a kept one),
      every one with its positive score; when nothing is cut, each score keeps all its chunks in ingestion order. */
  lemma RankedSpec(query: string, chunks: seq<Chunk>, topK: int)
    ensures var r := Ranked(query, chunks, topK);
      BestK(r, Matches(query, chunks), topK)
      && (forall x :: x in r ==> x.item in chunks && x.score == Score(query, x.item) > 0)
      && (topK >= |Matches(query, chunks)| ==> forall k :: WithScore(r, k) == WithScore(Matches(query, chunks), k))
  {
    TopKSpec(Matches(query, chunks), topK);
    MatchesSpec(query, chunks);
  }

  /** The query's answer: the ranked chunks as result rows. */
  function QueryResult(chunks: seq<Chunk>, query: string, topK: int): seq<map<string, string>>
  {
    ResultRows(Ranked(query, chunks, topK))
  }

  class PolicyStore {
    var chunks: seq<Chunk>

    constructor ()
      ensures chunks == []
    {
      chunks := [];
    }

    /** `ingest`: appends the chunk of every document with non-blank text and returns how many it added. */
    method Ingest(docs: seq<Document>) returns (count: nat)
      modifies this
      ensures chunks == old(chunks) + Ingested(docs)
      ensures count == |Ingested(docs)|
    {
      var added: seq<Chunk> := [];
      count := 0;
      var i := 0;
      assert docs[i..] == docs;
      while i < |docs|
        invariant 0 <= i <= |docs|
        invariant chunks == old(chunks)
        invariant added + Ingested(docs[i..]) == Ingested(docs)
        invariant count == |added|
      {
        IngestedStep(added, docs, i);
        var chunk := ChunkOf(docs[i]);
        if chunk.Some? {
          assert ChunkList(docs[i]) == [chunk.value];
          added := added + [chunk.value];
          count := count + 1;
        } else {
          assert added + ChunkList(docs[i]) == added;
        }
        i := i + 1;
      }
      assert added + Ingested(docs[i..]) == added;
      chunks := chunks + added;
    }

    /** The scoring loop of `query`. */
    method ScoreChunks(query: string) returns (scored: seq<Scored<Chunk>>)
      ensures scored == Matches(query, chunks)
    {
      var cs := chunks;
      scored := [];
      var i := 0;
      assert cs[i..] == cs;
      while i < |cs|
        invariant 0 <= i <= |cs|
        invariant scored + Matches(query, cs[i..]) == Matches(query, cs)
      {
        MatchesStep(scored, query, cs, i);
        var score := Score(query, cs[i]);
        if score > 0 {
          scored := scored + [Scored(score, cs[i])];
        } else {
          assert scored + MatchOf(query, cs[i]) == scored;
        }
        i := i + 1;
      }
      assert scored + Matches(query, cs[i..]) == scored;
    }

    /** `query`: the rows of the best `topK` chunks. */
    method Query(query: string, topK: int) returns (rows: seq<map<string, string>>)
      ensures rows == QueryResult(chunks, query, topK)
    {
      var scored := ScoreChunks(query);
      var ranked := TopK(scored, topK);
      rows := ResultRows(ranked);
    }
  }
}
