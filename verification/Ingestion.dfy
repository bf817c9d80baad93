/** Ingesting documents: each is cut into numbered chunks, and all the chunks are embedded and upserted. */
module Ingestion {
  import opened Prelude
  import opened Chunking
  import opened Retrieval

  datatype SeedDocument = SeedDocument(tenantId: string, sourceType: Option<string>, docId: string,
                                       title: string, content: string, labels: map<string, string>)

  datatype ChunkingConfig = ChunkingConfig(max: nat, overlap: nat, isSpace: char -> bool)

  /** What makes a document the same document: re-ingesting it writes over its chunks. */
  datatype Identity = Identity(tenantId: string, sourceType: string, docId: string)

  /** The hash of a chunk, from its tenant, document, number and text; nothing is assumed of it. */
  type ContentHash = (string, string, nat, string) -> string

  const NEWLINE := '\n'

  /** The blank line between title and content. */
  const GAP := [NEWLINE, NEWLINE]

  function TypeOf(d: SeedDocument): string {
    if d.sourceType.Some? then d.sourceType.value else "support_doc"
  }

  function IdentityOf(d: SeedDocument): Identity {
    Identity(d.tenantId, TypeOf(d), d.docId)
  }

  function SourceText(d: SeedDocument, isSpace: char -> bool): string {
    Strip(d.title, isSpace) + GAP + Strip(d.content, isSpace)
  }

  function NormalText(d: SeedDocument, config: ChunkingConfig): string {
    Normalize(SourceText(d, config.isSpace), config.isSpace)
  }

  predicate Usable(config: ChunkingConfig) {
    config.max >= 50 && config.isSpace(' ') && config.isSpace(NEWLINE)
  }

  ghost predicate CanSlice(d: SeedDocument, config: ChunkingConfig) {
    config.max >= 1 && Halts(NormalText(d, config), config.max, config.overlap)
  }

  function ChunkOf(d: SeedDocument, index: nat, text: string, isSpace: char -> bool, hash: ContentHash): ChunkRecord {
    ChunkRecord(d.tenantId, TypeOf(d), d.docId, Some(d.docId), index, text, hash(d.tenantId, d.docId, index, text),
                d.labels["title" := Strip(d.title, isSpace)], [])
  }

  function ChunksOf(d: SeedDocument, segments: seq<string>, isSpace: char -> bool, hash: ContentHash)
    : (chunks: seq<ChunkRecord>)
    ensures |chunks| == |segments|
  {
    seq(|segments|, k requires 0 <= k < |segments| => ChunkOf(d, k, segments[k], isSpace, hash))
  }

  /** The chunks are the numbered segments of the document. */
  ghost predicate Chunked(d: SeedDocument, config: ChunkingConfig, hash: ContentHash, chunks: seq<ChunkRecord>)
    requires config.max >= 1
  {
    exists segments, ws ::
      && Sliced(NormalText(d, config), config.max, config.overlap, config.isSpace, segments, ws)
      && chunks == ChunksOf(d, segments, config.isSpace, hash)
  }

  /** Neither title nor content has anything but whitespace. */
  predicate Wordless(d: SeedDocument, isSpace: char -> bool) {
    && (forall k :: 0 <= k < |d.title| ==> isSpace(d.title[k]))
    && forall k :: 0 <= k < |d.content| ==> isSpace(d.content[k])
  }

  lemma WordlessSource(d: SeedDocument, isSpace: char -> bool)
    requires isSpace(NEWLINE)
    ensures Wordless(d, isSpace) <==> Split(SourceText(d, isSpace), isSpace) == []
  {
    hide Strip, Split;
    var text, title, content := SourceText(d, isSpace), Strip(d.title, isSpace), Strip(d.content, isSpace);
    NoWordsExactly(text, isSpace);
    OnlySpaces(d.title, isSpace);
    OnlySpaces(d.content, isSpace);
    assert forall k :: 0 <= k < |title| ==> text[k] == title[k];
    assert forall k :: 0 <= k < |content| ==> text[|title| + 2 + k] == content[k];
    assert text[|title|] == NEWLINE && text[|title| + 1] == NEWLINE;
  }

  lemma OnlySpaces(s: string, isSpace: char -> bool)
    ensures (forall k :: 0 <= k < |s| ==> isSpace(s[k])) <==>
            forall k :: 0 <= k < |Strip(s, isSpace)| ==> isSpace(Strip(s, isSpace)[k])
  {
    hide Strip;
    var p, q := StripParts(s, isSpace);
    var m := Strip(s, isSpace);
    assert forall k :: 0 <= k < |m| ==> s[|p| + k] == m[k];
    assert forall k :: |p| + |m| <= k < |s| ==> s[k] == q[k - |p| - |m|];
  }

  /** A document without a single word makes a chunk without text, which the record type refuses. */
  method ChunkDocument(d: SeedDocument, config: ChunkingConfig, hash: ContentHash)
    returns (r: Outcome<seq<ChunkRecord>>)
    requires Usable(config) && CanSlice(d, config)
    ensures r.Raised? <==> Wordless(d, config.isSpace)
    ensures r.Ok? ==> Chunked(d, config, hash, r.value)
  {
    WordlessSource(d, config.isSpace);
    hide Wordless, SourceText, ChunksOf, ChunkOf, Sliced, Normalize, Split, Join, Strip, Linked, CutAt, WellSpaced;
    hide Halts;
    var text := SourceText(d, config.isSpace);
    var segments := SliceText(text, config.max, config.overlap, config.isSpace);
    ghost var ws :| Sliced(Normalize(text, config.isSpace), config.max, config.overlap, config.isSpace, segments, ws);
    BlankExactly(text, config.max, config.overlap, config.isSpace, segments, ws);
    var chunks: seq<ChunkRecord> := [];
    NoChunks(d, config.isSpace, hash);
    for k := 0 to |segments|
      invariant chunks == ChunksOf(d, segments[..k], config.isSpace, hash)
      invariant "" !in segments[..k]
    {
      if segments[k] == "" {
        return Raised("content must not be empty");
      }
      ChunksOneMore(d, segments, config.isSpace, hash, k);
      chunks := chunks + [ChunkOf(d, k, segments[k], config.isSpace, hash)];
    }
    assert segments[..|segments|] == segments;
    return Ok(chunks);
  }

  lemma NoChunks(d: SeedDocument, isSpace: char -> bool, hash: ContentHash)
    ensures ChunksOf(d, [], isSpace, hash) == []
  {
  }

  lemma ChunksOneMore(d: SeedDocument, segments: seq<string>, isSpace: char -> bool, hash: ContentHash, k: nat)
    requires k < |segments|
    ensures ChunksOf(d, segments[..k + 1], isSpace, hash)
            == ChunksOf(d, segments[..k], isSpace, hash) + [ChunkOf(d, k, segments[k], isSpace, hash)]
  {
    assert forall i :: 0 <= i < k ==> segments[..k + 1][i] == segments[..k][i];
  }

  lemma BlankExactly(text: string, max: nat, overlap: nat, isSpace: char -> bool, segments: seq<string>,
                     ws: seq<Window>)
    requires max >= 2 && isSpace(' ') && Sliced(Normalize(text, isSpace), max, overlap, isSpace, segments, ws)
    ensures "" in segments <==> Split(text, isSpace) == []
  {
    hide Split, Linked, CutAt, WellSpaced;
    var t := Normalize(text, isSpace);
    SplitGivesWords(text, isSpace);
    NormalizeKeepsWords(text, isSpace);
    JoinIsWellSpaced(Split(text, isSpace), isSpace);
    if t != "" {
      forall k | 0 <= k < |segments|
        ensures segments[k] != ""
      {
        SegmentSizes(t, max, overlap, isSpace, segments, ws, k);
      }
    }
  }

  // ---- Ingesting several documents ----

  function Flatten(pieces: seq<seq<ChunkRecord>>): seq<ChunkRecord> {
    if pieces == [] then [] else Flatten(pieces[..|pieces| - 1]) + pieces[|pieces| - 1]
  }

  function Enriched(chunks: seq<ChunkRecord>, embed: string -> Embedding): (enriched: seq<ChunkRecord>)
    ensures |enriched| == |chunks|
  {
    seq(|chunks|, i requires 0 <= i < |chunks| => chunks[i].(embedding := embed(chunks[i].content)))
  }

  ghost predicate AllChunked(docs: seq<SeedDocument>, config: ChunkingConfig, hash: ContentHash,
                             pieces: seq<seq<ChunkRecord>>)
    requires config.max >= 1
  {
    |pieces| == |docs| && forall n :: 0 <= n < |docs| ==> Chunked(docs[n], config, hash, pieces[n])
  }

  /** Nothing is stored unless every document can be cut. */
  method IngestDocuments(docs: seq<SeedDocument>, config: ChunkingConfig, hash: ContentHash,
                         embed: string -> Embedding, store: InMemoryRetrievalStore)
    returns (r: Outcome<seq<ChunkRecord>>, ghost pieces: seq<seq<ChunkRecord>>)
    requires Usable(config) && forall n :: 0 <= n < |docs| ==> CanSlice(docs[n], config)
    modifies store
    ensures r.Ok? ==>
              && AllChunked(docs, config, hash, pieces)
              && r.value == Enriched(Flatten(pieces), embed)
              && store.records == UpsertAll(old(store.records), r.value)
    ensures r.Raised? <==> exists d :: d in docs && Wordless(d, config.isSpace)
    ensures r.Raised? ==> store.records == old(store.records)
  {
    hide Chunked, CanSlice, Wordless;
    var chunks: seq<ChunkRecord> := [];
    pieces := [];
    for n := 0 to |docs|
      invariant AllChunked(docs[..n], config, hash, pieces) && chunks == Flatten(pieces)
      invariant store.records == old(store.records)
      invariant forall d :: d in docs[..n] ==> !Wordless(d, config.isSpace)
    {
      var piece := ChunkDocument(docs[n], config, hash);
      if piece.Raised? {
        assert docs[n] in docs;
        return Raised(piece.error), [];
      }
      ghost var before := pieces;
      chunks := chunks + piece.value;
      pieces := pieces + [piece.value];
      assert pieces[..|pieces| - 1] == before;
    }
    assert docs[..|docs|] == docs;
    var enriched := Enriched(chunks, embed);
    store.UpsertChunks(enriched);
    return Ok(enriched), pieces;
  }

  // ---- What ingestion guarantees ----

  ghost predicate DistinctDocuments(docs: seq<SeedDocument>) {
    forall i, j :: 0 <= i < j < |docs| ==> IdentityOf(docs[i]) != IdentityOf(docs[j])
  }

  function Owner(c: ChunkRecord): Identity {
    Identity(c.tenantId, c.sourceType, c.sourceId)
  }

  /** The chunks of one document, numbered from zero. */
  ghost predicate Numbered(d: SeedDocument, chunks: seq<ChunkRecord>) {
    forall k :: 0 <= k < |chunks| ==> Owner(chunks[k]) == IdentityOf(d) && chunks[k].chunkIndex == k
  }

  lemma ChunksAreNumbered(d: SeedDocument, config: ChunkingConfig, hash: ContentHash, chunks: seq<ChunkRecord>)
    requires config.max >= 1 && Chunked(d, config, hash, chunks)
    ensures chunks != [] && Numbered(d, chunks)
  {
  }

  /** Where a flattened chunk comes from. */
  lemma {:induction false} ChunkOrigin(docs: seq<SeedDocument>, config: ChunkingConfig, hash: ContentHash,
                                       pieces: seq<seq<ChunkRecord>>, i: nat) returns (n: nat, k: nat)
    requires config.max >= 1 && AllChunked(docs, config, hash, pieces) && i < |Flatten(pieces)|
    ensures n < |pieces| && k < |pieces[n]| && Flatten(pieces)[i] == pieces[n][k]
  {
    var last := |pieces| - 1;
    var front := Flatten(pieces[..last]);
    if i < |front| {
      n, k := ChunkOrigin(docs[..last], config, hash, pieces[..last], i);
    } else {
      n, k := last, i - |front|;
    }
  }

  lemma {:induction false} ChunkIsThere(pieces: seq<seq<ChunkRecord>>, n: nat, k: nat)
    requires n < |pieces| && k < |pieces[n]|
    ensures pieces[n][k] in Flatten(pieces)
  {
    if n < |pieces| - 1 {
      ChunkIsThere(pieces[..|pieces| - 1], n, k);
    }
  }

  ghost predicate HasOwner(docs: seq<SeedDocument>, c: ChunkRecord) {
    exists n :: 0 <= n < |docs| && Owner(c) == IdentityOf(docs[n])
  }

  ghost predicate HasFirst(chunks: seq<ChunkRecord>, d: SeedDocument) {
    exists i :: 0 <= i < |chunks| && Owner(chunks[i]) == IdentityOf(d) && chunks[i].chunkIndex == 0
  }

  lemma FlattenedOwners(docs: seq<SeedDocument>, config: ChunkingConfig, hash: ContentHash,
                        pieces: seq<seq<ChunkRecord>>)
    requires config.max >= 1 && AllChunked(docs, config, hash, pieces)
    ensures forall i :: 0 <= i < |Flatten(pieces)| ==> HasOwner(docs, Flatten(pieces)[i])
    ensures forall n :: 0 <= n < |docs| ==> HasFirst(Flatten(pieces), docs[n])
  {
    hide Chunked, Flatten;
    forall i | 0 <= i < |Flatten(pieces)|
      ensures HasOwner(docs, Flatten(pieces)[i])
    {
      var n, k := ChunkOrigin(docs, config, hash, pieces, i);
      ChunksAreNumbered(docs[n], config, hash, pieces[n]);
    }
    forall n | 0 <= n < |docs|
      ensures HasFirst(Flatten(pieces), docs[n])
    {
      ChunksAreNumbered(docs[n], config, hash, pieces[n]);
      ChunkIsThere(pieces, n, 0);
    }
  }

  lemma NewOwner(docs: seq<SeedDocument>, d: SeedDocument, front: seq<ChunkRecord>, piece: seq<ChunkRecord>)
    requires DistinctDocuments(docs + [d]) && UniqueKeys(front) && Numbered(d, piece)
    requires forall i :: 0 <= i < |front| ==> HasOwner(docs, front[i])
    ensures UniqueKeys(front + piece)
  {
    forall i, j | 0 <= i < |front| && 0 <= j < |piece|
      ensures KeyOf(front[i]) != KeyOf(piece[j])
    {
      assert HasOwner(docs, front[i]);
      var n :| 0 <= n < |docs| && Owner(front[i]) == IdentityOf(docs[n]);
      assert (docs + [d])[n] == docs[n] && (docs + [d])[|docs|] == d;
    }
    AppendedKeys(front, piece);
  }

  lemma OldOwner(docs: seq<SeedDocument>, d: SeedDocument, front: seq<ChunkRecord>, piece: seq<ChunkRecord>)
    requires UniqueKeys(front + piece) && DistinctDocuments(docs) && Numbered(d, piece) && piece != []
    requires forall n :: 0 <= n < |docs| ==> HasFirst(front, docs[n])
    ensures DistinctDocuments(docs + [d])
  {
    forall n | 0 <= n < |docs|
      ensures IdentityOf(docs[n]) != IdentityOf(d)
    {
      assert HasFirst(front, docs[n]);
      var i :| 0 <= i < |front| && Owner(front[i]) == IdentityOf(docs[n]) && front[i].chunkIndex == 0;
      assert (front + piece)[i] == front[i] && (front + piece)[|front|] == piece[0];
    }
  }

  lemma PrefixUnique(front: seq<ChunkRecord>, piece: seq<ChunkRecord>)
    requires UniqueKeys(front + piece)
    ensures UniqueKeys(front)
  {
    assert forall i :: 0 <= i < |front| ==> (front + piece)[i] == front[i];
  }

  lemma PrefixDistinct(docs: seq<SeedDocument>, d: SeedDocument)
    requires DistinctDocuments(docs + [d])
    ensures DistinctDocuments(docs)
  {
    assert forall i :: 0 <= i < |docs| ==> (docs + [d])[i] == docs[i];
  }

  /** The chunk keys of a batch are distinct exactly when its documents are. */
  lemma {:induction false} IngestedKeysAreUnique(docs: seq<SeedDocument>, config: ChunkingConfig, hash: ContentHash,
                                                 pieces: seq<seq<ChunkRecord>>)
    requires config.max >= 1 && AllChunked(docs, config, hash, pieces)
    ensures UniqueKeys(Flatten(pieces)) <==> DistinctDocuments(docs)
  {
    hide Chunked, UniqueKeys, DistinctDocuments, Numbered, HasOwner, HasFirst;
    if docs == [] {
      NothingIsUnique();
    } else {
      var n := |docs| - 1;
      var front := Flatten(pieces[..n]);
      assert docs == docs[..n] + [docs[n]];
      IngestedKeysAreUnique(docs[..n], config, hash, pieces[..n]);
      ChunksAreNumbered(docs[n], config, hash, pieces[n]);
      FlattenedOwners(docs[..n], config, hash, pieces[..n]);
      if DistinctDocuments(docs) {
        PrefixDistinct(docs[..n], docs[n]);
        NewOwner(docs[..n], docs[n], front, pieces[n]);
      }
      if UniqueKeys(Flatten(pieces)) {
        PrefixUnique(front, pieces[n]);
        OldOwner(docs[..n], docs[n], front, pieces[n]);
      }
    }
  }

  lemma NothingIsUnique()
    ensures UniqueKeys([]) && DistinctDocuments([])
  {
  }

  lemma EnrichedKeys(chunks: seq<ChunkRecord>, embed: string -> Embedding)
    ensures UniqueKeys(Enriched(chunks, embed)) <==> UniqueKeys(chunks)
  {
    assert forall i :: 0 <= i < |chunks| ==> KeyOf(Enriched(chunks, embed)[i]) == KeyOf(chunks[i]);
  }

  /** Text with only spaces around it has the stretches of the text in the middle, and no others. */
  lemma StretchInside(p: string, m: string, q: string, isSpace: char -> bool, i: nat, j: nat)
    requires (forall k :: 0 <= k < |p| ==> isSpace(p[k])) && forall k :: 0 <= k < |q| ==> isSpace(q[k])
    requires Stretch(p + m + q, isSpace, i, j)
    ensures |p| <= i < j <= |p| + |m| && Stretch(m, isSpace, i - |p|, j - |p|)
  {
    var s := p + m + q;
    assert forall k :: 0 <= k < |p| ==> s[k] == p[k];
    assert forall k :: 0 <= k < |m| ==> s[|p| + k] == m[k];
    assert forall k :: |p| + |m| <= k < |s| ==> s[k] == q[k - |p| - |m|];
    assert !isSpace(s[i]) && !isSpace(s[j - 1]);
  }

  lemma MiddleSlice(p: string, m: string, q: string, i: nat, j: nat)
    requires |p| <= i <= j <= |p| + |m|
    ensures m[i - |p|..j - |p|] == (p + m + q)[i..j]
  {
    var s := p + m + q;
    assert s[|p|..|p| + |m|] == m;
    SliceOfSlice(s, |p|, |p| + |m|, i, j);
  }

  lemma StretchOutside(p: string, m: string, q: string, isSpace: char -> bool, i: nat, j: nat)
    requires (forall k :: 0 <= k < |p| ==> isSpace(p[k])) && forall k :: 0 <= k < |q| ==> isSpace(q[k])
    requires Stretch(m, isSpace, i, j)
    ensures Stretch(p + m + q, isSpace, |p| + i, |p| + j)
  {
    var s := p + m + q;
    assert forall k :: 0 <= k < |p| ==> s[k] == p[k];
    assert forall k :: 0 <= k < |m| ==> s[|p| + k] == m[k];
    assert forall k :: |p| + |m| <= k < |s| ==> s[k] == q[k - |p| - |m|];
  }

  /** So stripping keeps every stretch. */
  lemma StrippedStretch(s: string, isSpace: char -> bool, i: nat, j: nat) returns (cut: nat)
    requires Stretch(s, isSpace, i, j)
    ensures cut <= i < j <= |s| && j - cut <= |Strip(s, isSpace)|
    ensures Stretch(Strip(s, isSpace), isSpace, i - cut, j - cut)
    ensures Strip(s, isSpace)[i - cut..j - cut] == s[i..j]
  {
    hide Strip, Stretch;
    var m := Strip(s, isSpace);
    var p, q := StripParts(s, isSpace);
    cut := |p|;
    assert s == p + m + q;
    StretchBounds(s, isSpace, i, j);
    StretchInside(p, m, q, isSpace, i, j);
    assert m[i - cut..j - cut] == s[i..j] by { MiddleSlice(p, m, q, i, j); }
  }

  lemma UnstrippedStretch(s: string, isSpace: char -> bool, i: nat, j: nat) returns (cut: nat)
    requires Stretch(Strip(s, isSpace), isSpace, i, j)
    ensures Stretch(s, isSpace, cut + i, cut + j)
  {
    hide Strip, Stretch;
    var p, q := StripParts(s, isSpace);
    cut := |p|;
    StretchOutside(p, Strip(s, isSpace), q, isSpace, i, j);
  }

  /** A stretch stays one when a space and more text follow. */
  lemma StretchBefore(a: string, b: string, isSpace: char -> bool, i: nat, j: nat)
    requires Stretch(a, isSpace, i, j) && b != "" && isSpace(b[0])
    ensures Stretch(a + b, isSpace, i, j) && (a + b)[i..j] == a[i..j]
  {
  }

  /** And when text that ends in a space comes before. */
  lemma StretchAfter(a: string, b: string, isSpace: char -> bool, i: nat, j: nat)
    requires Stretch(b, isSpace, i, j) && a != "" && isSpace(a[|a| - 1])
    ensures Stretch(a + b, isSpace, |a| + i, |a| + j) && (a + b)[|a| + i..|a| + j] == b[i..j]
  {
    assert forall k :: 0 <= k < |b| ==> (a + b)[|a| + k] == b[k];
  }

  /** Between two texts with blank lines between them there are no other stretches. */
  lemma StretchOfEither(a: string, b: string, isSpace: char -> bool, i: nat, j: nat)
    requires isSpace(NEWLINE) && Stretch(a + GAP + b, isSpace, i, j)
    ensures Stretch(a, isSpace, i, j) || (|a| + 2 <= i && Stretch(b, isSpace, i - |a| - 2, j - |a| - 2))
  {
    var t, n := a + GAP + b, |a|;
    assert t[n] == NEWLINE && t[n + 1] == NEWLINE;
    if j <= n {
      assert forall k :: 0 <= k < n ==> t[k] == a[k];
    } else {
      assert n + 2 <= i;
      assert forall k :: 0 <= k < |b| ==> t[n + 2 + k] == b[k];
    }
  }

  /** The stretches of a document's text are those of its title and its content. */
  lemma SourceStretch(d: SeedDocument, isSpace: char -> bool, part: string, i: nat, j: nat) returns (a: nat)
    requires isSpace(NEWLINE) && part in {d.title, d.content} && Stretch(part, isSpace, i, j)
    ensures i < j <= |part| && Stretch(SourceText(d, isSpace), isSpace, a, a + (j - i))
    ensures SourceText(d, isSpace)[a..a + (j - i)] == part[i..j]
  {
    hide Strip, Stretch;
    var title, content := Strip(d.title, isSpace), Strip(d.content, isSpace);
    var cut := StrippedStretch(part, isSpace, i, j);
    if part == d.title {
      a := i - cut;
      StretchBefore(title, GAP + content, isSpace, i - cut, j - cut);
      assert SourceText(d, isSpace) == title + (GAP + content);
    } else {
      a := |title| + 2 + (i - cut);
      StretchAfter(title + GAP, content, isSpace, i - cut, j - cut);
    }
  }

  lemma SourceStretches(d: SeedDocument, isSpace: char -> bool, longest: nat)
    requires isSpace(NEWLINE)
    requires StretchesWithin(d.title, isSpace, longest) && StretchesWithin(d.content, isSpace, longest)
    ensures StretchesWithin(SourceText(d, isSpace), isSpace, longest)
  {
    hide Strip, Stretch;
    var title, content := Strip(d.title, isSpace), Strip(d.content, isSpace);
    forall i: nat, j: nat | Stretch(SourceText(d, isSpace), isSpace, i, j)
      ensures j - i <= longest
    {
      StretchOfEither(title, content, isSpace, i, j);
      StretchBounds(SourceText(d, isSpace), isSpace, i, j);
      if Stretch(title, isSpace, i, j) {
        var cut := UnstrippedStretch(d.title, isSpace, i, j);
      } else {
        var i': nat, j': nat := i - |title| - 2, j - |title| - 2;
        assert Stretch(content, isSpace, i', j');
        var cut := UnstrippedStretch(d.content, isSpace, i', j');
      }
    }
  }

  /**
   * Once distinct documents are ingested, every word of the title and of the content of every one of them can
   * be read in a stored chunk of that document, whatever the store held before.
   */
  lemma EveryWordIsStored(records: seq<ChunkRecord>, docs: seq<SeedDocument>, config: ChunkingConfig, hash: ContentHash,
                          embed: string -> Embedding, pieces: seq<seq<ChunkRecord>>, longest: nat, n: nat,
                          part: string, i: nat, j: nat)
    returns (c: ChunkRecord, m: nat)
    requires UniqueKeys(records) && Usable(config) && AllChunked(docs, config, hash, pieces) && DistinctDocuments(docs)
    requires n < |docs| && part in {docs[n].title, docs[n].content} && Stretch(part, config.isSpace, i, j)
    requires WordsFit(longest, config.max, config.overlap)
    requires StretchesWithin(docs[n].title, config.isSpace, longest)
    requires StretchesWithin(docs[n].content, config.isSpace, longest)
    ensures c in UpsertAll(records, Enriched(Flatten(pieces), embed))
    ensures c.tenantId == docs[n].tenantId && c.sourceId == docs[n].docId
    ensures c.sourceType == (if docs[n].sourceType.Some? then docs[n].sourceType.value else "support_doc")
    ensures c.embedding == embed(c.content)
    ensures i < j <= |part| && m + (j - i) <= |c.content| && c.content[m..m + (j - i)] == part[i..j]
  {
    hide Split, Join, Strip, Sliced, UpsertAll, Flatten, Stretch, StretchesWithin;
    var d, batch := docs[n], Enriched(Flatten(pieces), embed);
    var a := SourceStretch(d, config.isSpace, part, i, j);
    SourceStretches(d, config.isSpace, longest);
    var segments, ws :| Sliced(NormalText(d, config), config.max, config.overlap, config.isSpace, segments, ws)
                        && pieces[n] == ChunksOf(d, segments, config.isSpace, hash);
    var k, at := NoWordIsLost(SourceText(d, config.isSpace), config.max, config.overlap, config.isSpace, segments, ws,
                              longest, a, a + (j - i));
    m := at;
    ChunkIsThere(pieces, n, k);
    var p :| 0 <= p < |Flatten(pieces)| && Flatten(pieces)[p] == pieces[n][k];
    c := batch[p];
    IngestedKeysAreUnique(docs, config, hash, pieces);
    EnrichedKeys(Flatten(pieces), embed);
    UniqueBatchIsStored(records, batch, p);
  }

  /** Field by field, what a document's chunks are. */
  lemma ChunksFieldByField(d: SeedDocument, config: ChunkingConfig, hash: ContentHash, chunks: seq<ChunkRecord>)
    returns (segments: seq<string>, ws: seq<Window>)
    requires config.max >= 1 && Chunked(d, config, hash, chunks)
    ensures Sliced(NormalText(d, config), config.max, config.overlap, config.isSpace, segments, ws)
    ensures |chunks| == |segments|
    ensures forall k :: 0 <= k < |chunks| ==>
              && chunks[k].tenantId == d.tenantId && chunks[k].sourceId == d.docId
              && chunks[k].objectId == Some(d.docId)
              && chunks[k].sourceType == (if d.sourceType.Some? then d.sourceType.value else "support_doc")
              && chunks[k].chunkIndex == k && chunks[k].content == segments[k]
              && chunks[k].contentHash == hash(d.tenantId, d.docId, k, segments[k])
              && chunks[k].metadata == d.labels["title" := Strip(d.title, config.isSpace)]
  {
    segments, ws :| Sliced(NormalText(d, config), config.max, config.overlap, config.isSpace, segments, ws)
                    && chunks == ChunksOf(d, segments, config.isSpace, hash);
  }

  /** The documents' chunks follow one another in the order of the documents. */
  lemma {:induction false} DocumentsInOrder(pieces: seq<seq<ChunkRecord>>, n: nat)
    requires n < |pieces|
    ensures Flatten(pieces[..n]) + pieces[n] <= Flatten(pieces)
  {
    if n < |pieces| - 1 {
      DocumentsInOrder(pieces[..|pieces| - 1], n);
      assert pieces[..|pieces| - 1][..n] == pieces[..n];
    }
  }

  lemma UniqueBatchIsStored(records: seq<ChunkRecord>, batch: seq<ChunkRecord>, j: nat)
    requires UniqueKeys(records) && UniqueKeys(batch) && j < |batch|
    ensures batch[j] in UpsertAll(records, batch)
  {
    UpsertAllWrites(records, batch);
    UniqueContents(UpsertAll(records, batch));
    WriteAllMembers(Contents(records), batch, KeyOf(batch[j]));
    UniqueContents(batch);
    assert batch[j] in batch;
  }

  /**
   * Ingesting a document again that has become shorter leaves its old tail in the store: chunks whose
   * numbers the new version no longer reaches stay as they were.
   */
  lemma OldTailStays(records: seq<ChunkRecord>, d: SeedDocument, config: ChunkingConfig, hash: ContentHash,
                     embed: string -> Embedding, chunks: seq<ChunkRecord>, c: ChunkRecord)
    requires UniqueKeys(records) && config.max >= 1 && Chunked(d, config, hash, chunks) && c in records
    ensures var after := UpsertAll(records, Enriched(chunks, embed));
            c in after <==> Owner(c) != IdentityOf(d) || c.chunkIndex >= |chunks| || c in Enriched(chunks, embed)
  {
    hide Chunked;
    var batch := Enriched(chunks, embed);
    ChunksAreNumbered(d, config, hash, chunks);
    EnrichedKeySet(d, chunks, embed, KeyOf(c));
    RecordStays(records, batch, c);
  }

  lemma EnrichedKeySet(d: SeedDocument, chunks: seq<ChunkRecord>, embed: string -> Embedding, k: Key)
    requires Numbered(d, chunks)
    ensures k in KeysOf(Enriched(chunks, embed)) <==>
            Identity(k.tenantId, k.sourceType, k.sourceId) == IdentityOf(d) && k.chunkIndex < |chunks|
    ensures UniqueKeys(Enriched(chunks, embed))
  {
    var batch := Enriched(chunks, embed);
    assert forall i :: 0 <= i < |chunks| ==> KeyOf(batch[i]) == KeyOf(chunks[i]) && batch[i] in batch;
    if Identity(k.tenantId, k.sourceType, k.sourceId) == IdentityOf(d) && k.chunkIndex < |chunks| {
      assert KeyOf(batch[k.chunkIndex]) == k;
    }
  }

  lemma RecordStays(records: seq<ChunkRecord>, batch: seq<ChunkRecord>, c: ChunkRecord)
    requires UniqueKeys(records) && UniqueKeys(batch) && c in records
    ensures c in UpsertAll(records, batch) <==> KeyOf(c) !in KeysOf(batch) || c in batch
  {
    UpsertAllWrites(records, batch);
    UniqueContents(records);
    UniqueContents(UpsertAll(records, batch));
    UniqueContents(batch);
    WriteAllMembers(Contents(records), batch, KeyOf(c));
  }
}
