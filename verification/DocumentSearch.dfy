/** The document search tool: of each document, its best chunk, once. */
module DocumentSearch {
  import opened Prelude
  import Retrieval
  import Sorting

  type Chunk = Retrieval.RetrievedChunk

  /** One entry of the answer; `chunk` stands for the title, category, tags and snippet taken from it. */
  datatype Entry = Entry(docId: string, score: real, chunk: Chunk)

  ghost predicate Monotone(round: real -> real) {
    forall x, y :: x <= y ==> round(x) <= round(y)
  }

  /** The retrieval result lists chunks best first. */
  ghost predicate Descending(chunks: seq<Chunk>) {
    forall i, j :: 0 <= i < j < |chunks| ==> chunks[i].score >= chunks[j].score
  }

  function EntryOf(c: Chunk, round: real -> real): Entry {
    Entry(c.sourceId, round(c.score), c)
  }

  /** The first of the chunks that belongs to the document and passes. */
  function FirstPassing(chunks: seq<Chunk>, passes: Chunk -> bool, d: string): Option<Chunk> {
    if chunks == [] then None
    else if passes(chunks[0]) && chunks[0].sourceId == d then Some(chunks[0])
    else FirstPassing(chunks[1..], passes, d)
  }

  lemma {:induction false} FirstPassingMore(chunks: seq<Chunk>, passes: Chunk -> bool, d: string, c: Chunk)
    ensures FirstPassing(chunks + [c], passes, d) ==
            if FirstPassing(chunks, passes, d).Some? then FirstPassing(chunks, passes, d)
            else if passes(c) && c.sourceId == d then Some(c) else None
  {
    if chunks == [] {
      assert chunks + [c] == [c] && [c][1..] == [];
    } else {
      FirstPassingMore(chunks[1..], passes, d, c);
      assert (chunks + [c])[1..] == chunks[1..] + [c];
    }
  }

  /** It is one of the document's passing chunks, and none of those scores higher. */
  lemma {:induction false} FirstIsBest(chunks: seq<Chunk>, passes: Chunk -> bool, d: string)
    requires Descending(chunks)
    ensures match FirstPassing(chunks, passes, d)
            case None => forall i :: 0 <= i < |chunks| ==> !(passes(chunks[i]) && chunks[i].sourceId == d)
            case Some(best) =>
              && best in chunks && passes(best) && best.sourceId == d
              && forall i :: 0 <= i < |chunks| && passes(chunks[i]) && chunks[i].sourceId == d ==>
                   chunks[i].score <= best.score
  {
    if chunks != [] {
      FirstIsBest(chunks[1..], passes, d);
      assert chunks == [chunks[0]] + chunks[1..];
    }
  }

  /** The dictionary the loop builds, seen as a map: each document's first passing chunk. */
  ghost predicate HoldsFirsts(found: map<string, Entry>, chunks: seq<Chunk>, passes: Chunk -> bool,
                              round: real -> real) {
    forall d: string ::
      var first := FirstPassing(chunks, passes, d);
      (d in found <==> first.Some?) && (d in found ==> found[d] == EntryOf(first.value, round))
  }

  // ---- The answer's order ----

  predicate EntryLeq(a: Entry, b: Entry) {
    a.score > b.score || (a.score == b.score && Retrieval.TextLeq(a.docId, b.docId))
  }

  lemma EntryOrderIsTotal()
    ensures Sorting.TotalPreorder(EntryLeq)
  {
    forall a, b
      ensures EntryLeq(a, b) || EntryLeq(b, a)
    {
      Retrieval.TextLeqTotal(a.docId, b.docId);
    }
    forall a, b, c | EntryLeq(a, b) && EntryLeq(b, c)
      ensures EntryLeq(a, c)
    {
      if a.score == b.score == c.score {
        Retrieval.TextLeqTransitive(a.docId, b.docId, c.docId);
      }
    }
  }

  ghost predicate DistinctDocs(entries: seq<Entry>) {
    forall i, j :: 0 <= i < j < |entries| ==> entries[i].docId != entries[j].docId
  }

  lemma DistinctNeverTie(entries: seq<Entry>)
    requires DistinctDocs(entries)
    ensures Sorting.NoTies(entries, EntryLeq)
  {
    forall i, j | 0 <= i < j < |entries|
      ensures !(EntryLeq(entries[i], entries[j]) && EntryLeq(entries[j], entries[i]))
    {
      var a, b := entries[i].docId, entries[j].docId;
      if Retrieval.TextLeq(a, b) && Retrieval.TextLeq(b, a) {
        Retrieval.TextLeqAntisymmetric(a, b);
      }
    }
  }

  /** The entries in the order their documents first came up, as a dictionary keeps them. */
  ghost predicate Lists(order: seq<string>, found: map<string, Entry>) {
    && (forall d :: d in order <==> d in found)
    && (forall i, j :: 0 <= i < j < |order| ==> order[i] != order[j])
    && (forall d :: d in found ==> found[d].docId == d)
  }

  function Values(order: seq<string>, found: map<string, Entry>): seq<Entry>
    requires forall i :: 0 <= i < |order| ==> order[i] in found
  {
    seq(|order|, i requires 0 <= i < |order| => found[order[i]])
  }

  /** Each document with a passing chunk is in the answer once, with its best one, and the order is strict. */
  ghost predicate IsAnswer(entries: seq<Entry>, chunks: seq<Chunk>, passes: Chunk -> bool, round: real -> real) {
    && Sorting.Sorted(entries, EntryLeq) && Sorting.NoTies(entries, EntryLeq) && DistinctDocs(entries)
    && (forall i :: 0 <= i < |entries| ==>
          FirstPassing(chunks, passes, entries[i].docId).Some?
          && entries[i] == EntryOf(FirstPassing(chunks, passes, entries[i].docId).value, round))
    && (forall d: string :: FirstPassing(chunks, passes, d).Some? ==> HasDoc(entries, d))
  }

  ghost predicate HasDoc(entries: seq<Entry>, d: string) {
    exists i :: 0 <= i < |entries| && entries[i].docId == d
  }

  /** A document's kept entry is never beaten later: it came first, and scores only fall. */
  lemma KeptIsNotBeaten(chunks: seq<Chunk>, n: nat, passes: Chunk -> bool, round: real -> real,
                        found: map<string, Entry>)
    requires n < |chunks| && Descending(chunks) && Monotone(round)
    requires HoldsFirsts(found, chunks[..n], passes, round) && chunks[n].sourceId in found
    ensures round(chunks[n].score) <= found[chunks[n].sourceId].score
  {
    var d := chunks[n].sourceId;
    FirstIsBest(chunks[..n], passes, d);
    var best := FirstPassing(chunks[..n], passes, d).value;
    var i :| 0 <= i < n && chunks[..n][i] == best;
    assert chunks[i].score >= chunks[n].score;
  }

  lemma ValuesAreDistinct(order: seq<string>, found: map<string, Entry>)
    requires Lists(order, found)
    ensures DistinctDocs(Values(order, found))
    ensures forall d :: d in found ==> HasDoc(Values(order, found), d)
  {
    forall d | d in found
      ensures HasDoc(Values(order, found), d)
    {
      var i :| 0 <= i < |order| && order[i] == d;
      assert Values(order, found)[i].docId == d;
    }
  }

  lemma SortedValues(order: seq<string>, found: map<string, Entry>)
    requires Lists(order, found)
    ensures var entries := Sorting.Sort(Values(order, found), EntryLeq);
            && Sorting.Sorted(entries, EntryLeq) && Sorting.NoTies(entries, EntryLeq)
            && forall e :: e in entries <==> e in Values(order, found)
  {
    var values := Values(order, found);
    var entries := Sorting.Sort(values, EntryLeq);
    EntryOrderIsTotal();
    ValuesAreDistinct(order, found);
    DistinctNeverTie(values);
    Sorting.SortMultiset(values, EntryLeq);
    Sorting.SortSorted(values, EntryLeq);
    Sorting.NoTiesPermuted(values, entries, EntryLeq);
    forall e
      ensures e in entries <==> e in values
    {
      assert e in multiset(entries) <==> e in multiset(values);
    }
  }

  /** The entries are the dictionary's, all of them. */
  ghost predicate Covers(entries: seq<Entry>, found: map<string, Entry>) {
    && (forall i :: 0 <= i < |entries| ==> entries[i].docId in found && found[entries[i].docId] == entries[i])
    && (forall d :: d in found ==> HasDoc(entries, d))
  }

  lemma ValuesCover(order: seq<string>, found: map<string, Entry>)
    requires Lists(order, found)
    ensures Covers(Values(order, found), found)
  {
    ValuesAreDistinct(order, found);
  }

  lemma CoversTheSame(values: seq<Entry>, entries: seq<Entry>, found: map<string, Entry>)
    requires Covers(values, found) && forall e :: e in entries <==> e in values
    ensures Covers(entries, found)
  {
    assert forall i :: 0 <= i < |entries| ==> entries[i] in values;
    forall d | d in found
      ensures HasDoc(entries, d)
    {
      var k :| 0 <= k < |values| && values[k].docId == d;
      assert values[k] in entries;
    }
  }

  lemma SortedCovers(order: seq<string>, found: map<string, Entry>)
    requires Lists(order, found)
    ensures Covers(Sorting.Sort(Values(order, found), EntryLeq), found)
  {
    hide EntryLeq, Covers;
    ValuesCover(order, found);
    SortedValues(order, found);
    CoversTheSame(Values(order, found), Sorting.Sort(Values(order, found), EntryLeq), found);
  }

  lemma CoveringIsAnswer(entries: seq<Entry>, found: map<string, Entry>, chunks: seq<Chunk>, passes: Chunk -> bool,
                         round: real -> real)
    requires Sorting.Sorted(entries, EntryLeq) && Sorting.NoTies(entries, EntryLeq) && Covers(entries, found)
    requires HoldsFirsts(found, chunks, passes, round)
    ensures IsAnswer(entries, chunks, passes, round)
  {
  }

  /** The first chunk of the document that passes. */
  ghost predicate IsFirst(chunks: seq<Chunk>, passes: Chunk -> bool, d: string, k: nat) {
    && k < |chunks| && passes(chunks[k]) && chunks[k].sourceId == d
    && forall i :: 0 <= i < k && passes(chunks[i]) ==> chunks[i].sourceId != d
  }

  ghost predicate ShowsFirst(e: Entry, chunks: seq<Chunk>, passes: Chunk -> bool, round: real -> real) {
    exists k: nat :: IsFirst(chunks, passes, e.docId, k) && e.score == round(chunks[k].score) && e.chunk == chunks[k]
  }

  /**
   * What an answer is, entry by entry: best score first, equal scores in order of the document's id, no
   * document twice; each entry shows its document's first passing chunk; and every document with a passing
   * chunk has one.
   */
  ghost predicate ReadsAs(entries: seq<Entry>, chunks: seq<Chunk>, passes: Chunk -> bool, round: real -> real) {
    && (forall i, j :: 0 <= i < j < |entries| ==>
          && entries[i].docId != entries[j].docId
          && entries[i].score >= entries[j].score
          && (entries[i].score == entries[j].score ==> Retrieval.Lexicographic(entries[i].docId, entries[j].docId)))
    && (forall i :: 0 <= i < |entries| ==> ShowsFirst(entries[i], chunks, passes, round))
    && forall k :: 0 <= k < |chunks| && passes(chunks[k]) ==> HasDoc(entries, chunks[k].sourceId)
  }

  lemma {:induction false} FirstPassingAt(chunks: seq<Chunk>, passes: Chunk -> bool, d: string)
    ensures match FirstPassing(chunks, passes, d)
            case Some(c) => exists k: nat :: IsFirst(chunks, passes, d, k) && chunks[k] == c
            case None => forall i :: 0 <= i < |chunks| && passes(chunks[i]) ==> chunks[i].sourceId != d
  {
    if chunks == [] {
    } else if passes(chunks[0]) && chunks[0].sourceId == d {
      assert IsFirst(chunks, passes, d, 0);
    } else {
      FirstPassingAt(chunks[1..], passes, d);
      if FirstPassing(chunks[1..], passes, d).Some? {
        var first := FirstPassing(chunks[1..], passes, d).value;
        var k: nat :| IsFirst(chunks[1..], passes, d, k) && chunks[1..][k] == first;
        assert IsFirst(chunks, passes, d, k + 1) by {
          assert forall i :: 1 <= i <= k ==> chunks[i] == chunks[1..][i - 1];
        }
      } else {
        assert forall i :: 1 <= i < |chunks| ==> chunks[i] == chunks[1..][i - 1];
      }
    }
  }

  lemma AnswerReads(entries: seq<Entry>, chunks: seq<Chunk>, passes: Chunk -> bool, round: real -> real)
    requires IsAnswer(entries, chunks, passes, round)
    ensures ReadsAs(entries, chunks, passes, round)
  {
    hide IsFirst;
    forall i, j | 0 <= i < j < |entries|
      ensures entries[i].docId != entries[j].docId && entries[i].score >= entries[j].score
      ensures entries[i].score == entries[j].score ==> Retrieval.Lexicographic(entries[i].docId, entries[j].docId)
    {
      assert EntryLeq(entries[i], entries[j]);
      Retrieval.TextLeqMeans(entries[i].docId, entries[j].docId);
    }
    forall i | 0 <= i < |entries|
      ensures ShowsFirst(entries[i], chunks, passes, round)
    {
      FirstPassingAt(chunks, passes, entries[i].docId);
    }
    forall k | 0 <= k < |chunks| && passes(chunks[k])
      ensures HasDoc(entries, chunks[k].sourceId)
    {
      FirstPassingAt(chunks, passes, chunks[k].sourceId);
    }
  }

  /** The loop overwrites an entry only for a strictly better one, and sorts what it holds at the end. */
  method Search(chunks: seq<Chunk>, passes: Chunk -> bool, round: real -> real) returns (entries: seq<Entry>)
    requires Descending(chunks) && Monotone(round)
    ensures IsAnswer(entries, chunks, passes, round) && ReadsAs(entries, chunks, passes, round)
  {
    var found: map<string, Entry>, order: seq<string> := map[], [];
    var n := 0;
    while n < |chunks|
      invariant 0 <= n <= |chunks|
      invariant HoldsFirsts(found, chunks[..n], passes, round)
      invariant Lists(order, found)
    {
      var c := chunks[n];
      assert chunks[..n + 1] == chunks[..n] + [c];
      forall d: string {
        FirstPassingMore(chunks[..n], passes, d, c);
      }
      if passes(c) {
        var candidate := EntryOf(c, round);
        if c.sourceId in found {
          KeptIsNotBeaten(chunks, n, passes, round, found);
        }
        if c.sourceId !in found || candidate.score > found[c.sourceId].score {
          order := if c.sourceId in found then order else order + [c.sourceId];
          found := found[c.sourceId := candidate];
        }
      }
      n := n + 1;
    }
    assert chunks[..n] == chunks;
    SortedValues(order, found);
    SortedCovers(order, found);
    CoveringIsAnswer(Sorting.Sort(Values(order, found), EntryLeq), found, chunks, passes, round);
    AnswerReads(Sorting.Sort(Values(order, found), EntryLeq), chunks, passes, round);
    return Sorting.Sort(Values(order, found), EntryLeq);
  }

  /** What the store returns for a query is a proper input: its clamped scores never rise. */
  lemma QueriesDescend(records: seq<Retrieval.ChunkRecord>, sim: Retrieval.Similarity, q: Retrieval.Embedding,
                       f: Retrieval.Filter)
    ensures Descending(Retrieval.Query(records, sim, q, f))
  {
    Retrieval.TopIsTop(records, sim, q, f, f.topK);
  }

  /** The score shown for a document is the best any of its passing chunks rounds to. */
  lemma ShownScoreIsBest(entries: seq<Entry>, chunks: seq<Chunk>, passes: Chunk -> bool, round: real -> real,
                         i: nat, k: nat)
    requires Descending(chunks) && Monotone(round) && IsAnswer(entries, chunks, passes, round)
    requires i < |entries| && k < |chunks| && passes(chunks[k]) && chunks[k].sourceId == entries[i].docId
    ensures round(chunks[k].score) <= entries[i].score
  {
    FirstIsBest(chunks, passes, entries[i].docId);
  }

  /** There is only one answer. */
  lemma AnswerIsUnique(a: seq<Entry>, b: seq<Entry>, chunks: seq<Chunk>, passes: Chunk -> bool, round: real -> real)
    requires IsAnswer(a, chunks, passes, round) && IsAnswer(b, chunks, passes, round)
    ensures a == b
  {
    forall e
      ensures multiset(a)[e] == multiset(b)[e]
    {
      CountInAnswer(a, e);
      CountInAnswer(b, e);
      if e in a {
        OtherHasIt(a, b, chunks, passes, round, e);
      }
      if e in b {
        OtherHasIt(b, a, chunks, passes, round, e);
      }
    }
    assert multiset(a) == multiset(b);
    Sorting.SortedUnique(a, b, EntryLeq);
  }

  lemma OtherHasIt(a: seq<Entry>, b: seq<Entry>, chunks: seq<Chunk>, passes: Chunk -> bool, round: real -> real,
                   e: Entry)
    requires IsAnswer(a, chunks, passes, round) && IsAnswer(b, chunks, passes, round) && e in a
    ensures e in b
  {
  }

  lemma {:induction false} CountInAnswer(entries: seq<Entry>, e: Entry)
    requires DistinctDocs(entries)
    ensures multiset(entries)[e] == if e in entries then 1 else 0
  {
    if entries != [] {
      assert entries == [entries[0]] + entries[1..];
      CountInAnswer(entries[1..], e);
    }
  }
}
