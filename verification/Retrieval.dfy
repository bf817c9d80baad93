/** The two retrieval stores, their filter, and ranked search over them. */
module Retrieval {
  import opened Prelude
  import Sorting

  type Embedding = seq<real>

  datatype ChunkRecord = ChunkRecord(tenantId: string, sourceType: string, sourceId: string,
                                     objectId: Option<string>, chunkIndex: nat, content: string,
                                     contentHash: string, metadata: map<string, string>, embedding: Embedding)

  datatype Key = Key(tenantId: string, sourceType: string, sourceId: string, chunkIndex: nat)

  datatype Filter = Filter(tenantId: string, sourceType: Option<string>, sourceId: Option<string>,
                           objectId: Option<string>, topK: nat)

  datatype RetrievedChunk = RetrievedChunk(tenantId: string, sourceType: string, sourceId: string,
                                           objectId: Option<string>, chunkIndex: nat, content: string,
                                           metadata: map<string, string>, score: real)

  /** How similar two embeddings are; nothing is assumed of it. */
  type Similarity = (Embedding, Embedding) -> real

  function KeyOf(c: ChunkRecord): Key {
    Key(c.tenantId, c.sourceType, c.sourceId, c.chunkIndex)
  }

  /** A missing object id reads as the text "None". */
  predicate Matches(c: ChunkRecord, f: Filter) {
    && c.tenantId == f.tenantId
    && (f.sourceType.Some? ==> c.sourceType == f.sourceType.value)
    && (f.sourceId.Some? ==> c.sourceId == f.sourceId.value)
    && (f.objectId.Some? ==> (if c.objectId.Some? then c.objectId.value else "None") == f.objectId.value)
  }

  function Passing(f: Filter): ChunkRecord -> bool {
    (c: ChunkRecord) => Matches(c, f)
  }

  function OfTenant(tenantId: string): ChunkRecord -> bool {
    (c: ChunkRecord) => c.tenantId == tenantId
  }

  function Select(records: seq<ChunkRecord>, keep: ChunkRecord -> bool): seq<ChunkRecord> {
    if records == [] then []
    else (if keep(records[0]) then [records[0]] else []) + Select(records[1..], keep)
  }

  // ---- Order ----

  /** Texts are compared character by character, a prefix first. */
  predicate TextLeq(a: string, b: string) {
    a == "" || (b != "" && (a[0] < b[0] || (a[0] == b[0] && TextLeq(a[1..], b[1..]))))
  }

  lemma {:induction false} TextLeqTotal(a: string, b: string)
    ensures TextLeq(a, b) || TextLeq(b, a)
  {
    if a != "" && b != "" && a[0] == b[0] {
      TextLeqTotal(a[1..], b[1..]);
    }
  }

  lemma {:induction false} TextLeqAntisymmetric(a: string, b: string)
    requires TextLeq(a, b) && TextLeq(b, a)
    ensures a == b
  {
    if a != "" && b != "" {
      TextLeqAntisymmetric(a[1..], b[1..]);
      assert a == [a[0]] + a[1..] && b == [b[0]] + b[1..];
    }
  }

  lemma {:induction false} TextLeqTransitive(a: string, b: string, c: string)
    requires TextLeq(a, b) && TextLeq(b, c)
    ensures TextLeq(a, c)
  {
    if a != "" && a[0] == b[0] && b[0] == c[0] {
      TextLeqTransitive(a[1..], b[1..], c[1..]);
    }
  }

  /** Best score first, then source, then position in the source. */
  predicate RankLeq(sim: Similarity, q: Embedding, a: ChunkRecord, b: ChunkRecord) {
    var x, y := sim(a.embedding, q), sim(b.embedding, q);
    x > y || (x == y && (
      if a.sourceId != b.sourceId then TextLeq(a.sourceId, b.sourceId) else a.chunkIndex <= b.chunkIndex))
  }

  function Ranking(sim: Similarity, q: Embedding): (ChunkRecord, ChunkRecord) -> bool {
    (a, b) => RankLeq(sim, q, a, b)
  }

  lemma RankingIsTotal(sim: Similarity, q: Embedding)
    ensures Sorting.TotalPreorder(Ranking(sim, q))
  {
    forall a, b
      ensures RankLeq(sim, q, a, b) || RankLeq(sim, q, b, a)
    {
      TextLeqTotal(a.sourceId, b.sourceId);
    }
    forall a, b, c | RankLeq(sim, q, a, b) && RankLeq(sim, q, b, c)
      ensures RankLeq(sim, q, a, c)
    {
      if a.sourceId != b.sourceId && b.sourceId != c.sourceId && TextLeq(a.sourceId, b.sourceId)
         && TextLeq(b.sourceId, c.sourceId) {
        TextLeqTransitive(a.sourceId, b.sourceId, c.sourceId);
        if a.sourceId == c.sourceId {
          TextLeqAntisymmetric(a.sourceId, b.sourceId);
        }
      }
    }
  }

  // ---- Queries ----

  function Min(a: nat, b: nat): nat {
    if a < b then a else b
  }

  function Ranked(records: seq<ChunkRecord>, sim: Similarity, q: Embedding, f: Filter): seq<ChunkRecord> {
    Sorting.Sort(Select(records, Passing(f)), Ranking(sim, q))
  }

  function Top(records: seq<ChunkRecord>, sim: Similarity, q: Embedding, f: Filter): seq<ChunkRecord> {
    var ranked := Ranked(records, sim, q, f);
    ranked[..Min(f.topK, |ranked|)]
  }

  function Present(c: ChunkRecord, sim: Similarity, q: Embedding): RetrievedChunk {
    var score := sim(c.embedding, q);
    RetrievedChunk(c.tenantId, c.sourceType, c.sourceId, c.objectId, c.chunkIndex, c.content, c.metadata,
                   if score > 0.0 then score else 0.0)
  }

  function Query(records: seq<ChunkRecord>, sim: Similarity, q: Embedding, f: Filter): seq<RetrievedChunk> {
    var top := Top(records, sim, q, f);
    seq(|top|, i requires 0 <= i < |top| => Present(top[i], sim, q))
  }

  // ---- Selection ----

  lemma {:induction false} SelectMembers(records: seq<ChunkRecord>, keep: ChunkRecord -> bool, c: ChunkRecord)
    ensures multiset(Select(records, keep))[c] == if keep(c) then multiset(records)[c] else 0
  {
    if records != [] {
      SelectMembers(records[1..], keep, c);
      var rest := Select(records[1..], keep);
      assert records == [records[0]] + records[1..];
      assert multiset(records) == multiset{records[0]} + multiset(records[1..]);
      if keep(records[0]) {
        assert multiset(Select(records, keep))
            == multiset([records[0]] + rest) == multiset{records[0]} + multiset(rest);
      } else {
        assert Select(records, keep) == [] + rest == rest;
      }
    }
  }

  lemma SelectPermuted(a: seq<ChunkRecord>, b: seq<ChunkRecord>, keep: ChunkRecord -> bool)
    requires multiset(a) == multiset(b)
    ensures multiset(Select(a, keep)) == multiset(Select(b, keep))
  {
    forall c
      ensures multiset(Select(a, keep))[c] == multiset(Select(b, keep))[c]
    {
      SelectMembers(a, keep, c);
      SelectMembers(b, keep, c);
    }
  }

  lemma {:induction false} SelectTwice(records: seq<ChunkRecord>, first: ChunkRecord -> bool,
                                       second: ChunkRecord -> bool)
    requires forall c :: second(c) ==> first(c)
    ensures Select(Select(records, first), second) == Select(records, second)
  {
    if records != [] {
      SelectTwice(records[1..], first, second);
      var rest := Select(records[1..], first);
      if first(records[0]) {
        assert Select(records, first) == [records[0]] + rest;
        assert ([records[0]] + rest)[1..] == rest;
      } else {
        assert Select(records, first) == [] + rest == rest;
        assert Select(records, second) == [] + Select(records[1..], second) == Select(records[1..], second);
      }
    }
  }

  lemma {:induction false} SelectConcat(a: seq<ChunkRecord>, b: seq<ChunkRecord>, keep: ChunkRecord -> bool)
    ensures Select(a + b, keep) == Select(a, keep) + Select(b, keep)
  {
    if a == [] {
      assert a + b == b;
    } else {
      SelectConcat(a[1..], b, keep);
      var head := if keep(a[0]) then [a[0]] else [];
      assert (a + b)[0] == a[0] && (a + b)[1..] == a[1..] + b;
      assert Select(a + b, keep) == head + Select(a[1..] + b, keep);
      assert Select(a, keep) == head + Select(a[1..], keep);
      assert head + (Select(a[1..], keep) + Select(b, keep)) == (head + Select(a[1..], keep)) + Select(b, keep);
    }
  }

  // ---- What a query returns ----

  /** One record per key. */
  predicate UniqueKeys(records: seq<ChunkRecord>) {
    forall i, j :: 0 <= i < j < |records| ==> KeyOf(records[i]) != KeyOf(records[j])
  }

  lemma {:induction false} SelectKeepsUnique(records: seq<ChunkRecord>, keep: ChunkRecord -> bool)
    requires UniqueKeys(records)
    ensures UniqueKeys(Select(records, keep))
    ensures forall i :: 0 <= i < |Select(records, keep)| ==>
              keep(Select(records, keep)[i]) && Select(records, keep)[i] in records
  {
    if records != [] {
      SelectKeepsUnique(records[1..], keep);
    }
  }

  /** Within one tenant and one source type, different keys never tie. */
  lemma NoTiesWithinType(records: seq<ChunkRecord>, sim: Similarity, q: Embedding, f: Filter)
    requires UniqueKeys(records) && f.sourceType.Some?
    ensures Sorting.NoTies(Select(records, Passing(f)), Ranking(sim, q))
  {
    var matching := Select(records, Passing(f));
    SelectKeepsUnique(records, Passing(f));
    forall i, j | 0 <= i < j < |matching|
      ensures !(RankLeq(sim, q, matching[i], matching[j]) && RankLeq(sim, q, matching[j], matching[i]))
    {
      var a, b := matching[i], matching[j];
      if a.sourceId != b.sourceId && TextLeq(a.sourceId, b.sourceId) && TextLeq(b.sourceId, a.sourceId) {
        TextLeqAntisymmetric(a.sourceId, b.sourceId);
      }
      assert KeyOf(a) != KeyOf(b);
    }
  }

  /**
   * The answer is the only possible one: any arrangement of the matching records that is sorted by rank
   * begins with exactly these.
   */
  lemma TopIsDetermined(records: seq<ChunkRecord>, sim: Similarity, q: Embedding, f: Filter, other: seq<ChunkRecord>)
    requires UniqueKeys(records) && f.sourceType.Some?
    requires Sorting.Sorted(other, Ranking(sim, q))
    requires multiset(other) == multiset(Select(records, Passing(f)))
    ensures Ranked(records, sim, q, f) == other
  {
    var matching := Select(records, Passing(f));
    RankingIsTotal(sim, q);
    NoTiesWithinType(records, sim, q, f);
    Sorting.SortMultiset(matching, Ranking(sim, q));
    Sorting.SortSorted(matching, Ranking(sim, q));
    Sorting.NoTiesPermuted(matching, Sorting.Sort(matching, Ranking(sim, q)), Ranking(sim, q));
    Sorting.SortedUnique(Sorting.Sort(matching, Ranking(sim, q)), other, Ranking(sim, q));
  }

  // ---- What a query shows, field by field ----

  /** In the order of a dictionary: a prefix first, else by the first character that differs. */
  ghost predicate Lexicographic(a: string, b: string) {
    || a <= b
    || exists k :: 0 <= k < |a| && k < |b| && a[..k] == b[..k] && a[k] < b[k]
  }

  lemma {:induction false} TextLeqMeans(a: string, b: string)
    ensures TextLeq(a, b) <==> Lexicographic(a, b)
  {
    if a != "" && b != "" {
      TextLeqMeans(a[1..], b[1..]);
      if a[0] == b[0] {
        if a[1..] <= b[1..] {
          assert a == [a[0]] + a[1..] && b == [b[0]] + b[1..];
        } else if Lexicographic(a[1..], b[1..]) {
          var k :| 0 <= k < |a[1..]| && k < |b[1..]| && a[1..][..k] == b[1..][..k] && a[1..][k] < b[1..][k];
          assert a[..k + 1] == [a[0]] + a[1..][..k] && b[..k + 1] == [b[0]] + b[1..][..k];
          assert a[k + 1] < b[k + 1];
        }
        if Lexicographic(a, b) {
          LexicographicTails(a, b);
        }
      } else if a[0] < b[0] {
        assert a[..0] == b[..0];
      } else {
        LexicographicHeads(a, b);
      }
    }
  }

  lemma LexicographicHeads(a: string, b: string)
    requires a != "" && b != ""
    ensures Lexicographic(a, b) ==> a[0] <= b[0]
  {
    if Lexicographic(a, b) && !(a <= b) {
      var k :| 0 <= k < |a| && k < |b| && a[..k] == b[..k] && a[k] < b[k];
      if k > 0 {
        assert a[..k][0] == b[..k][0];
      }
    }
  }

  lemma LexicographicTails(a: string, b: string)
    requires a != "" && b != "" && a[0] == b[0] && Lexicographic(a, b)
    ensures Lexicographic(a[1..], b[1..])
  {
    if !(a <= b) {
      var k :| 0 <= k < |a| && k < |b| && a[..k] == b[..k] && a[k] < b[k];
      assert a[1..][..k - 1] == a[..k][1..] && b[1..][..k - 1] == b[..k][1..];
      assert a[1..][k - 1] < b[1..][k - 1];
    }
  }

  /** Of two records, the one with the higher similarity; of equals, by source, and by position in it. */
  ghost predicate Precedes(sim: Similarity, q: Embedding, a: ChunkRecord, b: ChunkRecord) {
    || sim(a.embedding, q) > sim(b.embedding, q)
    || (sim(a.embedding, q) == sim(b.embedding, q)
        && ((a.sourceId != b.sourceId && Lexicographic(a.sourceId, b.sourceId))
            || (a.sourceId == b.sourceId && a.chunkIndex <= b.chunkIndex)))
  }

  lemma RankMeans(sim: Similarity, q: Embedding, a: ChunkRecord, b: ChunkRecord)
    ensures RankLeq(sim, q, a, b) <==> Precedes(sim, q, a, b)
  {
    TextLeqMeans(a.sourceId, b.sourceId);
    hide TextLeq, Lexicographic;
    var x, y := sim(a.embedding, q), sim(b.embedding, q);
    if x == y && a.sourceId != b.sourceId {
      assert RankLeq(sim, q, a, b) <==> TextLeq(a.sourceId, b.sourceId);
      assert Precedes(sim, q, a, b) <==> Lexicographic(a.sourceId, b.sourceId);
    }
  }

  /** Every field the filter names is as it says; an object id that is missing reads "None". */
  ghost predicate Meets(c: ChunkRecord, f: Filter) {
    && c.tenantId == f.tenantId
    && f.sourceType in {None, Some(c.sourceType)}
    && f.sourceId in {None, Some(c.sourceId)}
    && f.objectId in {None, if c.objectId == None then Some("None") else c.objectId}
  }

  lemma MatchesMeans(c: ChunkRecord, f: Filter)
    ensures Passing(f)(c) <==> Meets(c, f)
  {
    assert f.sourceType.Some? ==> f.sourceType == Some(f.sourceType.value);
    assert f.sourceId.Some? ==> f.sourceId == Some(f.sourceId.value);
    assert f.objectId.Some? ==> f.objectId == Some(f.objectId.value);
    assert c.objectId.Some? ==> c.objectId == Some(c.objectId.value);
  }

  /** A hit shows its record's fields, and the record's similarity to the query, or 0 where that is negative. */
  ghost predicate ShowsRecord(hit: RetrievedChunk, c: ChunkRecord, similarity: real) {
    && hit.tenantId == c.tenantId && hit.sourceType == c.sourceType && hit.sourceId == c.sourceId
    && hit.objectId == c.objectId && hit.chunkIndex == c.chunkIndex
    && hit.content == c.content && hit.metadata == c.metadata
    && hit.score >= 0.0 && hit.score >= similarity && (hit.score == 0.0 || hit.score == similarity)
  }

  /** Of every record that meets the filter as many copies as are stored, and of no other. */
  ghost predicate AreMatching(matching: seq<ChunkRecord>, records: seq<ChunkRecord>, f: Filter) {
    forall c :: multiset(matching)[c] == if Meets(c, f) then multiset(records)[c] else 0
  }

  ghost predicate InRankOrder(matching: seq<ChunkRecord>, sim: Similarity, q: Embedding) {
    forall i, j :: 0 <= i < j < |matching| ==> Precedes(sim, q, matching[i], matching[j])
  }

  /**
   * What an answer is: the stored records that meet the filter, in order of rank, cut off after as many as
   * were asked for; and each hit shows its record.
   */
  lemma QueryFieldByField(records: seq<ChunkRecord>, sim: Similarity, q: Embedding, f: Filter)
    returns (matching: seq<ChunkRecord>)
    ensures AreMatching(matching, records, f) && InRankOrder(matching, sim, q)
    ensures var hits := Query(records, sim, q, f);
            && |hits| == (if f.topK < |matching| then f.topK else |matching|)
            && forall i :: 0 <= i < |hits| ==> ShowsRecord(hits[i], matching[i], sim(matching[i].embedding, q))
  {
    matching := Ranked(records, sim, q, f);
    RankedOrder(records, sim, q, f);
    forall c
      ensures multiset(matching)[c] == if Meets(c, f) then multiset(records)[c] else 0
    {
      RankedMembers(records, sim, q, f, c);
    }
  }

  /** So every hit shows a stored record that meets the filter. */
  lemma HitsAreStored(records: seq<ChunkRecord>, sim: Similarity, q: Embedding, f: Filter, i: nat)
    returns (c: ChunkRecord)
    requires i < |Query(records, sim, q, f)|
    ensures c in records && Meets(c, f) && ShowsRecord(Query(records, sim, q, f)[i], c, sim(c.embedding, q))
  {
    var matching := QueryFieldByField(records, sim, q, f);
    c := matching[i];
    assert c in multiset(matching);
    assert c in multiset(records);
  }

  lemma RankedMembers(records: seq<ChunkRecord>, sim: Similarity, q: Embedding, f: Filter, c: ChunkRecord)
    ensures multiset(Ranked(records, sim, q, f))[c] == if Meets(c, f) then multiset(records)[c] else 0
  {
    Sorting.SortMultiset(Select(records, Passing(f)), Ranking(sim, q));
    SelectMembers(records, Passing(f), c);
    MatchesMeans(c, f);
  }

  lemma RankedOrder(records: seq<ChunkRecord>, sim: Similarity, q: Embedding, f: Filter)
    ensures var ranked := Ranked(records, sim, q, f);
            forall i, j :: 0 <= i < j < |ranked| ==> Precedes(sim, q, ranked[i], ranked[j])
  {
    hide RankLeq, Precedes;
    var ranked := Ranked(records, sim, q, f);
    RankingIsTotal(sim, q);
    Sorting.SortSorted(Select(records, Passing(f)), Ranking(sim, q));
    forall i, j | 0 <= i < j < |ranked|
      ensures Precedes(sim, q, ranked[i], ranked[j])
    {
      assert Ranking(sim, q)(ranked[i], ranked[j]);
      RankMeans(sim, q, ranked[i], ranked[j]);
    }
  }

  /** The order in which the store keeps its records does not matter. */
  lemma OrderDoesNotMatter(a: seq<ChunkRecord>, b: seq<ChunkRecord>, sim: Similarity, q: Embedding, f: Filter)
    requires UniqueKeys(a) && f.sourceType.Some? && multiset(a) == multiset(b)
    ensures Query(a, sim, q, f) == Query(b, sim, q, f)
  {
    var matching := Select(b, Passing(f));
    RankingIsTotal(sim, q);
    Sorting.SortMultiset(matching, Ranking(sim, q));
    Sorting.SortSorted(matching, Ranking(sim, q));
    SelectPermuted(a, b, Passing(f));
    TopIsDetermined(a, sim, q, f, Ranked(b, sim, q, f));
  }

  lemma PairStays(x: ChunkRecord, y: ChunkRecord, sim: Similarity, q: Embedding, f: Filter)
    requires Matches(x, f) && Matches(y, f) && RankLeq(sim, q, x, y)
    ensures Ranked([x, y], sim, q, f) == [x, y]
  {
    assert [x, y][1..] == [y] && [y][1..] == [];
    assert Select([y], Passing(f)) == [y];
    assert Select([x, y], Passing(f)) == [x] + [y];
    assert Sorting.Sort([y], Ranking(sim, q)) == Sorting.Insert(y, [], Ranking(sim, q)) == [y];
    assert Sorting.Sort([x, y], Ranking(sim, q)) == Sorting.Insert(x, [y], Ranking(sim, q)) == [x] + [y];
  }

  /** Without a source type in the filter it can: two types may share a source and a position. */
  lemma OrderCanMatter(sim: Similarity, q: Embedding, f: Filter) returns (a: seq<ChunkRecord>, b: seq<ChunkRecord>)
    requires f.sourceType.None? && f.topK > 0
    ensures UniqueKeys(a) && multiset(a) == multiset(b) && Query(a, sim, q, f) != Query(b, sim, q, f)
  {
    var sourceId := if f.sourceId.Some? then f.sourceId.value else "s";
    var x := ChunkRecord(f.tenantId, "doc", sourceId, f.objectId, 0, "c", "h", map[], []);
    var y := x.(sourceType := "faq");
    a, b := [x, y], [y, x];
    PairStarts(x, y, sim, q, f);
    PairStarts(y, x, sim, q, f);
    hide Query;
    assert "doc"[0] != "faq"[0];
    assert a[0] == x && a[1] == y;
  }

  lemma PairStarts(x: ChunkRecord, y: ChunkRecord, sim: Similarity, q: Embedding, f: Filter)
    requires Matches(x, f) && Matches(y, f) && RankLeq(sim, q, x, y) && f.topK > 0
    ensures Query([x, y], sim, q, f) != [] && Query([x, y], sim, q, f)[0].sourceType == x.sourceType
  {
    PairStays(x, y, sim, q, f);
    hide Ranked;
  }

  /** The stored order is without effect for exactly the filters that fix the source type or ask for nothing. */
  lemma OrderMattersExactly(sim: Similarity, q: Embedding, f: Filter)
    ensures f.sourceType.Some? || f.topK == 0 <==>
            forall a, b :: UniqueKeys(a) && multiset(a) == multiset(b) ==> Query(a, sim, q, f) == Query(b, sim, q, f)
  {
    if f.sourceType.Some? {
      forall a, b | UniqueKeys(a) && multiset(a) == multiset(b)
        ensures Query(a, sim, q, f) == Query(b, sim, q, f)
      {
        OrderDoesNotMatter(a, b, sim, q, f);
      }
    } else if f.topK > 0 {
      var a, b := OrderCanMatter(sim, q, f);
    }
  }

  /** Scores never rise down the list, left-out matches rank behind every hit, and fewer hits are a prefix of more. */
  lemma TopIsTop(records: seq<ChunkRecord>, sim: Similarity, q: Embedding, f: Filter, more: nat)
    requires f.topK <= more
    ensures var hits := Query(records, sim, q, f);
            && |hits| == Min(f.topK, |Select(records, Passing(f))|)
            && (forall i, j :: 0 <= i < j < |hits| ==> hits[i].score >= hits[j].score)
            && hits <= Query(records, sim, q, f.(topK := more))
    ensures var ranked := Ranked(records, sim, q, f);
            && multiset(ranked) == multiset(Select(records, Passing(f)))
            && forall i, j :: 0 <= i < f.topK <= j < |ranked| ==> RankLeq(sim, q, ranked[i], ranked[j])
  {
    var matching := Select(records, Passing(f));
    RankingIsTotal(sim, q);
    Sorting.SortMultiset(matching, Ranking(sim, q));
    Sorting.SortSorted(matching, Ranking(sim, q));
    var ranked := Ranked(records, sim, q, f);
    forall i, j | 0 <= i < j < |ranked|
      ensures RankLeq(sim, q, ranked[i], ranked[j])
    {
      assert Ranking(sim, q)(ranked[i], ranked[j]);
    }
    SameMatches(records, sim, q, f, more);
  }

  lemma SameMatches(records: seq<ChunkRecord>, sim: Similarity, q: Embedding, f: Filter, more: nat)
    ensures Ranked(records, sim, q, f.(topK := more)) == Ranked(records, sim, q, f)
  {
    var g := f.(topK := more);
    SelectAgrees(records, Passing(f), Passing(g));
  }

  lemma {:induction false} SelectAgrees(records: seq<ChunkRecord>, a: ChunkRecord -> bool, b: ChunkRecord -> bool)
    requires forall c :: a(c) == b(c)
    ensures Select(records, a) == Select(records, b)
  {
    if records != [] {
      SelectAgrees(records[1..], a, b);
    }
  }

  // ---- Upserts ----

  function Differing(k: Key): ChunkRecord -> bool {
    (existing: ChunkRecord) => KeyOf(existing) != k
  }

  function KeepOthers(records: seq<ChunkRecord>, k: Key): seq<ChunkRecord> {
    Select(records, Differing(k))
  }

  function UpsertOne(records: seq<ChunkRecord>, c: ChunkRecord): seq<ChunkRecord> {
    KeepOthers(records, KeyOf(c)) + [c]
  }

  function UpsertAll(records: seq<ChunkRecord>, batch: seq<ChunkRecord>): seq<ChunkRecord> {
    if batch == [] then records
    else UpsertOne(UpsertAll(records, batch[..|batch| - 1]), batch[|batch| - 1])
  }

  /** The list read as a map from keys to records. */
  ghost function Contents(records: seq<ChunkRecord>): map<Key, ChunkRecord> {
    map k | k in (set c | c in records :: KeyOf(c)) :: Last(records, k)
  }

  ghost function Last(records: seq<ChunkRecord>, k: Key): (c: ChunkRecord)
    requires exists c :: c in records && KeyOf(c) == k
    ensures c in records && KeyOf(c) == k
  {
    var c :| c in records && KeyOf(c) == k;
    c
  }

  /** Writing a batch over a map, the last writer of a key winning. */
  function WriteAll(m: map<Key, ChunkRecord>, batch: seq<ChunkRecord>): map<Key, ChunkRecord> {
    if batch == [] then m
    else WriteAll(m, batch[..|batch| - 1])[KeyOf(batch[|batch| - 1]) := batch[|batch| - 1]]
  }

  lemma UniqueContents(records: seq<ChunkRecord>)
    requires UniqueKeys(records)
    ensures forall c :: c in records <==> KeyOf(c) in Contents(records) && Contents(records)[KeyOf(c)] == c
  {
  }

  lemma SelectIn(records: seq<ChunkRecord>, keep: ChunkRecord -> bool, c: ChunkRecord)
    ensures c in Select(records, keep) <==> c in records && keep(c)
  {
  }

  /** Writing one chunk keeps keys unique and is one map update. */
  lemma UpsertOneWrites(records: seq<ChunkRecord>, c: ChunkRecord)
    requires UniqueKeys(records)
    ensures UniqueKeys(UpsertOne(records, c))
    ensures Contents(UpsertOne(records, c)) == Contents(records)[KeyOf(c) := c]
  {
    var keep := Differing(KeyOf(c));
    SelectKeepsUnique(records, keep);
    var after := UpsertOne(records, c);
    assert after == Select(records, keep) + [c];
    assert forall i :: 0 <= i < |after| - 1 ==> after[i] == Select(records, keep)[i] && keep(after[i]);
    assert UniqueKeys(after);
    UniqueContents(records);
    UniqueContents(after);
    forall d
      ensures d in after <==> d == c || (d in records && KeyOf(d) != KeyOf(c))
    {
      SelectIn(records, keep, d);
    }
    SameContents(after, Contents(records)[KeyOf(c) := c]);
  }

  lemma SameContents(records: seq<ChunkRecord>, m: map<Key, ChunkRecord>)
    requires UniqueKeys(records)
    requires forall k :: k in m ==> m[k] in records && KeyOf(m[k]) == k
    requires forall c :: c in records ==> KeyOf(c) in m && m[KeyOf(c)] == c
    ensures Contents(records) == m
  {
  }

  /** A key is the four fields that tell chunks apart. */
  lemma SameKeyMeans(a: ChunkRecord, b: ChunkRecord)
    ensures KeyOf(a) == KeyOf(b) <==>
            a.tenantId == b.tenantId && a.sourceType == b.sourceType && a.sourceId == b.sourceId
            && a.chunkIndex == b.chunkIndex
  {
  }

  ghost predicate Replaces(a: ChunkRecord, b: ChunkRecord) {
    && a.tenantId == b.tenantId && a.sourceType == b.sourceType && a.sourceId == b.sourceId
    && a.chunkIndex == b.chunkIndex
  }

  ghost predicate IsLastWriter(batch: seq<ChunkRecord>, i: nat)
    requires i < |batch|
  {
    forall j :: i < j < |batch| ==> !Replaces(batch[j], batch[i])
  }

  ghost predicate IsWritten(batch: seq<ChunkRecord>, c: ChunkRecord) {
    exists i :: 0 <= i < |batch| && batch[i] == c && IsLastWriter(batch, i)
  }

  ghost predicate IsReplaced(batch: seq<ChunkRecord>, c: ChunkRecord) {
    exists i :: 0 <= i < |batch| && Replaces(batch[i], c)
  }

  lemma OneMoreWriter(front: seq<ChunkRecord>, last: ChunkRecord, c: ChunkRecord)
    ensures IsWritten(front + [last], c) <==> c == last || (IsWritten(front, c) && !Replaces(last, c))
    ensures IsReplaced(front + [last], c) <==> IsReplaced(front, c) || Replaces(last, c)
  {
    var batch, n := front + [last], |front|;
    assert batch[n] == last && forall i :: 0 <= i < n ==> batch[i] == front[i];
    if c == last {
      assert IsLastWriter(batch, n);
    }
    forall i | 0 <= i < n
      ensures IsLastWriter(batch, i) <==> IsLastWriter(front, i) && !Replaces(last, batch[i])
    {
    }
  }

  /** Record by record, what is in the list after a batch: its last writers, and what none of them replaces. */
  lemma {:induction false} UpsertRecordByRecord(records: seq<ChunkRecord>, batch: seq<ChunkRecord>, c: ChunkRecord)
    ensures c in UpsertAll(records, batch) <==> IsWritten(batch, c) || (c in records && !IsReplaced(batch, c))
  {
    if batch != [] {
      var n := |batch| - 1;
      var front := batch[..n];
      UpsertRecordByRecord(records, front, c);
      SelectIn(UpsertAll(records, front), Differing(KeyOf(batch[n])), c);
      SameKeyMeans(c, batch[n]);
      assert batch == front + [batch[n]];
      OneMoreWriter(front, batch[n], c);
      hide IsWritten, IsReplaced;
      assert UpsertAll(records, batch) == KeepOthers(UpsertAll(records, front), KeyOf(batch[n])) + [batch[n]];
    }
  }

  /** From a store with unique keys, a batch behaves as writes to a map. */
  lemma {:induction false} UpsertAllWrites(records: seq<ChunkRecord>, batch: seq<ChunkRecord>)
    requires UniqueKeys(records)
    ensures UniqueKeys(UpsertAll(records, batch))
    ensures Contents(UpsertAll(records, batch)) == WriteAll(Contents(records), batch)
  {
    if batch != [] {
      UpsertAllWrites(records, batch[..|batch| - 1]);
      UpsertOneWrites(UpsertAll(records, batch[..|batch| - 1]), batch[|batch| - 1]);
    }
  }

  /** The records hold each mapped record once, and nothing else. */
  lemma {:induction false} UniqueMultiset(a: seq<ChunkRecord>, b: seq<ChunkRecord>)
    requires UniqueKeys(a) && UniqueKeys(b) && Contents(a) == Contents(b)
    ensures multiset(a) == multiset(b)
  {
    UniqueContents(a);
    UniqueContents(b);
    forall c
      ensures multiset(a)[c] == multiset(b)[c]
    {
      OnceEach(a, c);
      OnceEach(b, c);
    }
  }

  lemma {:induction false} OnceEach(records: seq<ChunkRecord>, c: ChunkRecord)
    requires UniqueKeys(records)
    ensures multiset(records)[c] == if c in records then 1 else 0
  {
    if records != [] {
      assert records == [records[0]] + records[1..];
      OnceEach(records[1..], c);
    }
  }

  /** Stores that hold the same map answer alike, however they were filled. */
  lemma SameContentsSameAnswers(a: seq<ChunkRecord>, b: seq<ChunkRecord>, sim: Similarity, q: Embedding, f: Filter)
    requires UniqueKeys(a) && UniqueKeys(b) && Contents(a) == Contents(b) && f.sourceType.Some?
    ensures Query(a, sim, q, f) == Query(b, sim, q, f)
  {
    UniqueMultiset(a, b);
    OrderDoesNotMatter(a, b, sim, q, f);
  }

  ghost function KeysOf(batch: seq<ChunkRecord>): set<Key> {
    set c | c in batch :: KeyOf(c)
  }

  lemma KeysOfMore(batch: seq<ChunkRecord>)
    requires batch != []
    ensures KeysOf(batch) == KeysOf(batch[..|batch| - 1]) + {KeyOf(batch[|batch| - 1])}
  {
  }

  /** A written key holds one of the batch's records; the others keep theirs. */
  lemma {:induction false} WriteAllMembers(m: map<Key, ChunkRecord>, batch: seq<ChunkRecord>, k: Key)
    ensures WriteAll(m, batch).Keys == m.Keys + KeysOf(batch)
    ensures k in m && k !in KeysOf(batch) ==> WriteAll(m, batch)[k] == m[k]
    ensures k in KeysOf(batch) ==>
              k in WriteAll(m, batch) && WriteAll(m, batch)[k] in batch && KeyOf(WriteAll(m, batch)[k]) == k
  {
    if batch != [] {
      WriteAllMembers(m, batch[..|batch| - 1], k);
      KeysOfMore(batch);
    }
  }

  lemma {:induction false} WriteAllKeys(m: map<Key, ChunkRecord>, batch: seq<ChunkRecord>)
    ensures WriteAll(m, batch).Keys == m.Keys + KeysOf(batch)
  {
    if batch != [] {
      WriteAllKeys(m, batch[..|batch| - 1]);
      KeysOfMore(batch);
    }
  }

  // ---- Tenants ----

  /** A query sees its own tenant's records and nothing else. */
  lemma OwnTenantOnly(records: seq<ChunkRecord>, sim: Similarity, q: Embedding, f: Filter)
    ensures Query(Select(records, OfTenant(f.tenantId)), sim, q, f) == Query(records, sim, q, f)
    ensures forall i :: 0 <= i < |Query(records, sim, q, f)| ==> Query(records, sim, q, f)[i].tenantId == f.tenantId
  {
    SelectTwice(records, OfTenant(f.tenantId), Passing(f));
    var matching := Select(records, Passing(f));
    Sorting.SortMultiset(matching, Ranking(sim, q));
    var top := Top(records, sim, q, f);
    forall i | 0 <= i < |top|
      ensures top[i].tenantId == f.tenantId
    {
      assert top[i] in multiset(Ranked(records, sim, q, f));
      SelectIn(records, Passing(f), top[i]);
      assert top[i] in matching;
    }
  }

  /** Whatever other tenants write, a tenant's answers stay the same, to the last byte. */
  lemma {:induction false} OtherTenantsDoNotInterfere(records: seq<ChunkRecord>, batch: seq<ChunkRecord>,
                                                      sim: Similarity, q: Embedding, f: Filter)
    requires forall i :: 0 <= i < |batch| ==> batch[i].tenantId != f.tenantId
    ensures Query(UpsertAll(records, batch), sim, q, f) == Query(records, sim, q, f)
  {
    if batch != [] {
      var front := UpsertAll(records, batch[..|batch| - 1]);
      var c := batch[|batch| - 1];
      OtherTenantsDoNotInterfere(records, batch[..|batch| - 1], sim, q, f);
      var keep := Differing(KeyOf(c));
      var matches := Passing(f);
      SelectConcat(Select(front, keep), [c], matches);
      SelectTwice(front, keep, matches);
      assert Select([c], matches) == [];
      assert Select(UpsertOne(front, c), matches) == Select(front, matches);
    }
  }

  // ---- The two stores ----

  class InMemoryRetrievalStore {
    var records: seq<ChunkRecord>

    constructor (initial: seq<ChunkRecord>)
      ensures records == initial
    {
      records := initial;
    }

    /** Each chunk replaces whatever has its key, and goes to the end of the list. */
    method UpsertChunks(batch: seq<ChunkRecord>)
      modifies this
      ensures records == UpsertAll(old(records), batch)
      ensures UniqueKeys(old(records)) ==>
                UniqueKeys(records) && Contents(records) == WriteAll(Contents(old(records)), batch)
    {
      for i := 0 to |batch|
        invariant records == UpsertAll(old(records), batch[..i])
      {
        assert batch[..i + 1][..i] == batch[..i];
        var kept := KeepOthers(records, KeyOf(batch[i]));
        records := kept + [batch[i]];
      }
      assert batch[..|batch|] == batch;
      if UniqueKeys(old(records)) {
        UpsertAllWrites(old(records), batch);
      }
    }
  }

  /**
   * The SQL store. Its table admits no two rows with one key. Each delete runs against the table, and the
   * new rows wait in the session until it flushes: before each statement if it flushes on its own, and in
   * any case at the end of the call. A flush that meets a repeated key raises, and the call is undone.
   */
  class SqlRetrievalStore {
    const autoflush: bool
    var rows: seq<ChunkRecord>

    ghost predicate Valid()
      reads this
    {
      UniqueKeys(rows)
    }

    constructor (autoflush: bool)
      ensures Valid() && rows == [] && this.autoflush == autoflush
    {
      this.autoflush, rows := autoflush, [];
    }

    method UpsertChunks(batch: seq<ChunkRecord>) returns (error: Option<string>)
      requires Valid()
      modifies this
      ensures Valid()
      ensures error.Some? <==> !autoflush && !UniqueKeys(batch)
      ensures error.Some? ==> rows == old(rows)
      ensures error.None? ==> Contents(rows) == WriteAll(Contents(old(rows)), batch)
      ensures rows == SqlAfter(old(rows), batch, autoflush)
    {
      hide UniqueKeys, Contents, WriteAll, UpsertAll, Deleted, KeepOthers;
      SqlOutcome(rows, batch, autoflush);
      UpsertsBegin(rows);
      if batch == [] {
        return None;
      }
      var before, pending := rows, [];
      for i := 0 to |batch|
        invariant autoflush ==> rows + pending == UpsertAll(before, batch[..i])
        invariant !autoflush ==> rows == Deleted(before, batch[..i]) && pending == batch[..i]
      {
        UpsertsGoOn(before, batch, i);
        if autoflush {
          // Cannot meet a repeated key: the one row that waits has just had its key deleted.
          UpsertAllWrites(before, batch[..i]);
          assert UniqueKeys(rows + pending);
          rows, pending := rows + pending, [];
          assert rows + pending == rows;
        }
        rows := KeepOthers(rows, KeyOf(batch[i]));
        pending := pending + [batch[i]];
      }
      assert batch[..|batch|] == batch;
      if !UniqueKeys(rows + pending) {
        rows := before;
        return Some(REPEATED_KEY);
      }
      rows := rows + pending;
      return None;
    }
  }

  const REPEATED_KEY := "duplicate key value violates unique constraint"

  lemma UpsertsBegin(rows: seq<ChunkRecord>)
    ensures UpsertAll(rows, []) == rows && Deleted(rows, []) == rows && UniqueKeys([])
  {
  }

  lemma UpsertsGoOn(rows: seq<ChunkRecord>, batch: seq<ChunkRecord>, i: nat)
    requires i < |batch|
    ensures UpsertAll(rows, batch[..i + 1]) == KeepOthers(UpsertAll(rows, batch[..i]), KeyOf(batch[i])) + [batch[i]]
    ensures Deleted(rows, batch[..i + 1]) == KeepOthers(Deleted(rows, batch[..i]), KeyOf(batch[i]))
    ensures batch[..i + 1] == batch[..i] + [batch[i]]
  {
    assert batch[..i + 1][..i] == batch[..i];
  }

  function Deleted(rows: seq<ChunkRecord>, batch: seq<ChunkRecord>): seq<ChunkRecord> {
    if batch == [] then rows
    else KeepOthers(Deleted(rows, batch[..|batch| - 1]), KeyOf(batch[|batch| - 1]))
  }

  /** What a batch does to the table, or the error that leaves it as it was. */
  function SqlUpsert(rows: seq<ChunkRecord>, batch: seq<ChunkRecord>, autoflush: bool): Outcome<seq<ChunkRecord>> {
    var after := if autoflush then UpsertAll(rows, batch) else Deleted(rows, batch) + batch;
    if UniqueKeys(after) then Ok(after) else Raised(REPEATED_KEY)
  }

  function SqlAfter(rows: seq<ChunkRecord>, batch: seq<ChunkRecord>, autoflush: bool): seq<ChunkRecord> {
    var outcome := SqlUpsert(rows, batch, autoflush);
    if outcome.Ok? then outcome.value else rows
  }

  lemma {:induction false} DeletedMembers(rows: seq<ChunkRecord>, batch: seq<ChunkRecord>, c: ChunkRecord)
    ensures c in Deleted(rows, batch) <==> c in rows && KeyOf(c) !in KeysOf(batch)
  {
    if batch != [] {
      var n := |batch| - 1;
      DeletedMembers(rows, batch[..n], c);
      KeysOfMore(batch);
      SelectIn(Deleted(rows, batch[..n]), Differing(KeyOf(batch[n])), c);
    }
  }

  /** Deleting first and adding afterwards leaves unique keys exactly when the batch has them. */
  lemma DeletedThenAdded(rows: seq<ChunkRecord>, batch: seq<ChunkRecord>)
    requires UniqueKeys(rows)
    ensures UniqueKeys(Deleted(rows, batch) + batch) <==> UniqueKeys(batch)
  {
    var kept := Deleted(rows, batch);
    StillUnique(rows, batch);
    forall i, j | 0 <= i < |kept| && 0 <= j < |batch|
      ensures KeyOf(kept[i]) != KeyOf(batch[j])
    {
      DeletedMembers(rows, batch, kept[i]);
      assert kept[i] in kept && batch[j] in batch;
    }
    AppendedKeys(kept, batch);
  }

  /**
   * A batch is refused exactly when it repeats a key and the session does not flush on its own. A batch
   * that is not refused is, read as a map, a series of writes of which the last one wins.
   */
  lemma SqlOutcome(rows: seq<ChunkRecord>, batch: seq<ChunkRecord>, autoflush: bool)
    requires UniqueKeys(rows)
    ensures SqlUpsert(rows, batch, autoflush).Raised? <==> !autoflush && !UniqueKeys(batch)
    ensures UniqueKeys(SqlAfter(rows, batch, autoflush))
    ensures SqlUpsert(rows, batch, autoflush).Ok? ==>
              Contents(SqlAfter(rows, batch, autoflush)) == WriteAll(Contents(rows), batch)
    ensures batch == [] ==> SqlAfter(rows, batch, autoflush) == rows
  {
    UpsertAllWrites(rows, batch);
    DeletedThenAdded(rows, batch);
    if UniqueKeys(batch) {
      DeleteFirstWrites(rows, batch);
    }
    if batch == [] {
      assert Deleted(rows, batch) + batch == rows;
    }
  }

  lemma AppendedKeys(kept: seq<ChunkRecord>, batch: seq<ChunkRecord>)
    requires UniqueKeys(kept)
    requires forall i, j :: 0 <= i < |kept| && 0 <= j < |batch| ==> KeyOf(kept[i]) != KeyOf(batch[j])
    ensures UniqueKeys(kept + batch) <==> UniqueKeys(batch)
  {
    var all, n := kept + batch, |kept|;
    if UniqueKeys(all) {
      forall i, j | 0 <= i < j < |batch|
        ensures KeyOf(batch[i]) != KeyOf(batch[j])
      {
        assert KeyOf(all[n + i]) != KeyOf(all[n + j]);
      }
    }
  }

  lemma {:induction false} StillUnique(rows: seq<ChunkRecord>, batch: seq<ChunkRecord>)
    requires UniqueKeys(rows)
    ensures UniqueKeys(Deleted(rows, batch))
  {
    if batch != [] {
      StillUnique(rows, batch[..|batch| - 1]);
      SelectKeepsUnique(Deleted(rows, batch[..|batch| - 1]), Differing(KeyOf(batch[|batch| - 1])));
    }
  }

  lemma DeleteFirstWrites(rows: seq<ChunkRecord>, batch: seq<ChunkRecord>)
    requires UniqueKeys(rows) && UniqueKeys(batch)
    ensures Contents(Deleted(rows, batch) + batch) == WriteAll(Contents(rows), batch)
  {
    DeletedThenAdded(rows, batch);
    var after := Deleted(rows, batch) + batch;
    UniqueContents(rows);
    var m := WriteAll(Contents(rows), batch);
    WriteAllKeys(Contents(rows), batch);
    forall k | k in m
      ensures m[k] in after && KeyOf(m[k]) == k
    {
      WriteAllMembers(Contents(rows), batch, k);
      DeletedMembers(rows, batch, m[k]);
    }
    forall c | c in after
      ensures KeyOf(c) in m && m[KeyOf(c)] == c
    {
      WriteAllMembers(Contents(rows), batch, KeyOf(c));
      DeletedMembers(rows, batch, c);
      if c in batch {
        UniqueContents(batch);
        assert m[KeyOf(c)] in batch;
      }
    }
    SameContents(after, m);
  }

  // ---- Writing a batch again ----

  lemma {:induction false} SelectEvery(records: seq<ChunkRecord>, keep: ChunkRecord -> bool)
    requires forall c :: c in records ==> keep(c)
    ensures Select(records, keep) == records
  {
    if records != [] {
      SelectEvery(records[1..], keep);
    }
  }

  lemma {:induction false} NothingToDelete(rows: seq<ChunkRecord>, batch: seq<ChunkRecord>)
    requires forall c :: c in rows ==> KeyOf(c) !in KeysOf(batch)
    ensures Deleted(rows, batch) == rows
  {
    if batch != [] {
      KeysOfMore(batch);
      NothingToDelete(rows, batch[..|batch| - 1]);
      SelectEvery(rows, Differing(KeyOf(batch[|batch| - 1])));
    }
  }

  lemma EverythingDeleted(rows: seq<ChunkRecord>, batch: seq<ChunkRecord>)
    requires forall c :: c in rows ==> KeyOf(c) in KeysOf(batch)
    ensures Deleted(rows, batch) == []
  {
    if Deleted(rows, batch) != [] {
      DeletedMembers(rows, batch, Deleted(rows, batch)[0]);
    }
  }

  /** A batch works on two halves of a list apart: it deletes from the first, and is written over the second. */
  lemma {:induction false} UpsertSplits(first: seq<ChunkRecord>, second: seq<ChunkRecord>, batch: seq<ChunkRecord>)
    ensures UpsertAll(first + second, batch) == Deleted(first, batch) + UpsertAll(second, batch)
  {
    if batch != [] {
      var n := |batch| - 1;
      UpsertSplits(first, second, batch[..n]);
      SelectConcat(Deleted(first, batch[..n]), UpsertAll(second, batch[..n]), Differing(KeyOf(batch[n])));
    }
  }

  lemma {:induction false} WrittenKeys(batch: seq<ChunkRecord>, c: ChunkRecord)
    requires c in UpsertAll([], batch)
    ensures KeyOf(c) in KeysOf(batch)
  {
    if batch != [] {
      var n := |batch| - 1;
      KeysOfMore(batch);
      if c != batch[n] {
        SelectIn(UpsertAll([], batch[..n]), Differing(KeyOf(batch[n])), c);
        WrittenKeys(batch[..n], c);
      }
    }
  }

  /**
   * Ingesting the same chunks twice leaves the list as ingesting them once, record by record and in the
   * same order; so every answer stays the same, whatever the filter and whatever the list held before.
   */
  lemma ReingestingIsHarmless(records: seq<ChunkRecord>, batch: seq<ChunkRecord>)
    ensures UpsertAll(UpsertAll(records, batch), batch) == UpsertAll(records, batch)
  {
    var kept, written := Deleted(records, batch), UpsertAll([], batch);
    UpsertSplits(records, [], batch);
    assert records + [] == records;
    UpsertSplits(kept + written, [], batch);
    assert (kept + written) + [] == kept + written;
    DeletedConcat(kept, written, batch);
    forall c | c in kept
      ensures KeyOf(c) !in KeysOf(batch)
    {
      DeletedMembers(records, batch, c);
    }
    NothingToDelete(kept, batch);
    forall c | c in written
      ensures KeyOf(c) in KeysOf(batch)
    {
      WrittenKeys(batch, c);
    }
    EverythingDeleted(written, batch);
  }

  lemma {:induction false} DeletedConcat(a: seq<ChunkRecord>, b: seq<ChunkRecord>, batch: seq<ChunkRecord>)
    ensures Deleted(a + b, batch) == Deleted(a, batch) + Deleted(b, batch)
  {
    if batch != [] {
      var n := |batch| - 1;
      DeletedConcat(a, b, batch[..n]);
      SelectConcat(Deleted(a, batch[..n]), Deleted(b, batch[..n]), Differing(KeyOf(batch[n])));
    }
  }

  // ---- The two stores compared ----

  /** Whatever batch the SQL store accepts, both stores then hold the same map and give the same answers. */
  lemma StoresAgree(records: seq<ChunkRecord>, rows: seq<ChunkRecord>, batch: seq<ChunkRecord>, autoflush: bool,
                    sim: Similarity, q: Embedding, f: Filter)
    requires UniqueKeys(records) && UniqueKeys(rows) && Contents(records) == Contents(rows)
    requires SqlUpsert(rows, batch, autoflush).Ok?
    ensures var after := SqlUpsert(rows, batch, autoflush).value;
            && Contents(after) == Contents(UpsertAll(records, batch))
            && (f.sourceType.Some? ==> Query(after, sim, q, f) == Query(UpsertAll(records, batch), sim, q, f))
  {
    UpsertAllWrites(records, batch);
    SqlOutcome(rows, batch, autoflush);
    if f.sourceType.Some? {
      SameContentsSameAnswers(SqlUpsert(rows, batch, autoflush).value, UpsertAll(records, batch), sim, q, f);
    }
  }

  /** The table after a series of calls, some of which may have raised. */
  function SqlRun(batches: seq<seq<ChunkRecord>>, autoflush: bool): seq<ChunkRecord> {
    if batches == [] then []
    else SqlAfter(SqlRun(batches[..|batches| - 1], autoflush), batches[|batches| - 1], autoflush)
  }

  /** The list store after the calls that did not repeat a key, or after all of them. */
  function MemoryRun(batches: seq<seq<ChunkRecord>>, all: bool): seq<ChunkRecord> {
    if batches == [] then []
    else
      var before, last := MemoryRun(batches[..|batches| - 1], all), batches[|batches| - 1];
      if all || UniqueKeys(last) then UpsertAll(before, last) else before
  }

  /**
   * After any series of batches the table has one row per key, and holds what the list store holds after
   * those of them that the table accepts.
   */
  lemma {:induction false} StoresStayTogether(batches: seq<seq<ChunkRecord>>, autoflush: bool)
    ensures UniqueKeys(SqlRun(batches, autoflush)) && UniqueKeys(MemoryRun(batches, autoflush))
    ensures Contents(SqlRun(batches, autoflush)) == Contents(MemoryRun(batches, autoflush))
  {
    if batches != [] {
      var front, last := batches[..|batches| - 1], batches[|batches| - 1];
      StoresStayTogether(front, autoflush);
      SqlOutcome(SqlRun(front, autoflush), last, autoflush);
      UpsertAllWrites(MemoryRun(front, autoflush), last);
    }
  }

  lemma {:induction false} OthersDeleted(rows: seq<ChunkRecord>, batch: seq<ChunkRecord>, f: Filter)
    requires forall i :: 0 <= i < |batch| ==> batch[i].tenantId != f.tenantId
    ensures Select(Deleted(rows, batch), Passing(f)) == Select(rows, Passing(f))
    ensures Select(batch, Passing(f)) == []
  {
    if batch != [] {
      var n := |batch| - 1;
      OthersDeleted(rows, batch[..n], f);
      SelectTwice(Deleted(rows, batch[..n]), Differing(KeyOf(batch[n])), Passing(f));
      assert batch == batch[..n] + [batch[n]];
      SelectConcat(batch[..n], [batch[n]], Passing(f));
    }
  }

  /** The SQL store keeps tenants apart in the same way. */
  lemma OtherTenantsDoNotInterfereInSql(rows: seq<ChunkRecord>, batch: seq<ChunkRecord>, autoflush: bool,
                                        sim: Similarity, q: Embedding, f: Filter)
    requires forall i :: 0 <= i < |batch| ==> batch[i].tenantId != f.tenantId
    ensures Query(SqlAfter(rows, batch, autoflush), sim, q, f) == Query(rows, sim, q, f)
  {
    if autoflush {
      OtherTenantsDoNotInterfere(rows, batch, sim, q, f);
    } else {
      OthersDeleted(rows, batch, f);
      SelectConcat(Deleted(rows, batch), batch, Passing(f));
      assert Select(Deleted(rows, batch) + batch, Passing(f)) == Select(rows, Passing(f));
    }
  }
}
