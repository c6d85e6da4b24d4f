// One ingestion pass over a knowledge base and the counters it leaves
// (intelliguard/knowledge/indexing.py:229-293, persistence/store.py:3648-3713, 3751-3866).
module KnowledgeIngestion {
  import opened Outcomes

  datatype DocStatus = Uploaded | Queued | Parsing | Embedding | Indexed | Failed

  datatype Doc = Doc(source: string, status: DocStatus, chunkCount: nat)

  // A chunk row: its document and index version.
  datatype Chunk = Chunk(document: string, version: nat)

  // Idle is "draft" for a knowledge base and "pending" for an index version.
  datatype Health = Idle | Ready | Degraded | Broken

  // The knowledge base: its counters, whether it has an error, and when it was last indexed.
  datatype Base = Base(health: Health, documents: nat, chunks: nat, error: bool, indexedAt: Option<nat>)

  // An index version; while it is made its status is "indexing".
  datatype IndexStatus = Indexing | Is(health: Health)

  datatype Index = Index(sources: nat, status: IndexStatus, documents: nat, chunks: nat, error: bool, completedAt: Option<nat>)

  // --- The simple form -----------------------------------------------------------------

  // What indexing a document gives: its number of chunks, or nothing. The indexer is given;
  // a document of an unknown source fails.
  function Indexable(docs: map<string, Doc>, sources: set<string>, indexer: string -> Option<nat>, id: string): Option<nat>
    requires id in docs
  {
    if docs[id].source in sources then indexer(id) else None
  }

  predicate Due(d: Doc, force: bool) {
    force || d.status in {Uploaded, Queued, Failed}
  }

  function Selection(order: seq<string>, docs: map<string, Doc>, force: bool): (ids: seq<string>)
    requires forall id :: id in order ==> id in docs
    ensures forall id :: id in ids ==> id in order
  {
    if |order| == 0 then []
    else
      var last := order[|order| - 1];
      Selection(order[..|order| - 1], docs, force) + (if Due(docs[last], force) then [last] else [])
  }

  function Repeat(c: Chunk, n: nat): seq<Chunk> {
    seq(n, i => c)
  }

  // The chunks of the documents that can be indexed, in order.
  function NewChunks(ids: seq<string>, sizes: map<string, Option<nat>>, version: nat): seq<Chunk>
    requires forall id :: id in ids ==> id in sizes
  {
    if |ids| == 0 then []
    else
      var last := ids[|ids| - 1];
      NewChunks(ids[..|ids| - 1], sizes, version)
      + (if sizes[last].Some? then Repeat(Chunk(last, version), sizes[last].value) else [])
  }

  function Sum(ids: seq<string>, sizes: map<string, Option<nat>>): nat
    requires forall id :: id in ids ==> id in sizes
  {
    if |ids| == 0 then 0
    else Sum(ids[..|ids| - 1], sizes) + (if sizes[ids[|ids| - 1]].Some? then sizes[ids[|ids| - 1]].value else 0)
  }

  // The documents with at least one chunk.
  function NonEmpty(ids: seq<string>, sizes: map<string, Option<nat>>): set<string>
    requires forall id :: id in ids ==> id in sizes
  {
    set id | id in ids && sizes[id].Some? && sizes[id].value > 0
  }

  // A processed document: indexed with its chunks, or failed with its old count.
  function Processed(d: Doc, size: Option<nat>): Doc {
    if size.Some? then d.(status := Indexed, chunkCount := size.value) else d.(status := Failed)
  }

  function Sizes(docs: map<string, Doc>, sources: set<string>, indexer: string -> Option<nat>): (sizes: map<string, Option<nat>>)
    ensures sizes.Keys == docs.Keys
  {
    map id | id in docs :: Indexable(docs, sources, indexer, id)
  }

  // The documents listed have been processed, and the others left alone.
  ghost predicate PassDone(before: map<string, Doc>, docs: map<string, Doc>, ids: seq<string>, sizes: map<string, Option<nat>>) {
    && docs.Keys == before.Keys && sizes.Keys == before.Keys
    && forall id :: id in docs ==> docs[id] == if id in ids then Processed(before[id], sizes[id]) else before[id]
  }

  // --- Counting rows ---------------------------------------------------------------------

  // A chunk of an indexed document, in the version asked for, if one is.
  predicate Counted(c: Chunk, docs: map<string, Doc>, version: Option<nat>) {
    (version.Some? ==> c.version == version.value) && c.document in docs && docs[c.document].status == Indexed
  }

  function CountChunks(chunks: seq<Chunk>, docs: map<string, Doc>, version: Option<nat>): nat {
    if |chunks| == 0 then 0
    else CountChunks(chunks[..|chunks| - 1], docs, version) + (if Counted(chunks[|chunks| - 1], docs, version) then 1 else 0)
  }

  function CountedDocuments(chunks: seq<Chunk>, docs: map<string, Doc>, version: Option<nat>): set<string> {
    set c | c in chunks && Counted(c, docs, version) :: c.document
  }

  function IndexedDocuments(docs: map<string, Doc>): set<string> {
    set id | id in docs && docs[id].status == Indexed
  }

  // The documents of an index version have a chunk in it; those of the base need none.
  function CountDocuments(chunks: seq<Chunk>, docs: map<string, Doc>, version: Option<nat>): nat {
    if version.Some? then |CountedDocuments(chunks, docs, version)| else |IndexedDocuments(docs)|
  }

  predicate SomeFailed(docs: map<string, Doc>) {
    exists id | id in docs :: docs[id].status == Failed
  }

  function HealthOf(failed: bool, chunks: nat): Health {
    if failed && chunks > 0 then Degraded else if failed then Broken else if chunks > 0 then Ready else Idle
  }

  // Failed documents break the base, or only degrade it while it has chunks; without failed
  // ones it is ready as soon as it has chunks.
  lemma HealthMeans(failed: bool, chunks: nat)
    ensures HealthOf(failed, chunks) == Degraded <==> failed && chunks > 0
    ensures HealthOf(failed, chunks) == Broken <==> failed && chunks == 0
    ensures HealthOf(failed, chunks) == Ready <==> !failed && chunks > 0
  {
  }

  function RefreshedBase(base: Base, documents: nat, chunks: nat, failed: bool, now: nat): Base {
    Base(HealthOf(failed, chunks), documents, chunks, failed, if chunks > 0 then Some(now) else base.indexedAt)
  }

  function RefreshedIndex(index: Index, documents: nat, chunks: nat, failed: bool, now: nat): Index {
    var health := HealthOf(failed, chunks);
    Index(index.sources, Is(health), documents, chunks, failed, if health != Idle then Some(now) else None)
  }

  function Without(chunks: seq<Chunk>, c: Chunk): seq<Chunk> {
    if |chunks| == 0 then []
    else Without(chunks[..|chunks| - 1], c) + (if chunks[|chunks| - 1] == c then [] else [chunks[|chunks| - 1]])
  }

  // --- The counters agree with the sums ------------------------------------------------------------

  lemma SizesHas(docs: map<string, Doc>, sources: set<string>, indexer: string -> Option<nat>)
    ensures Sizes(docs, sources, indexer).Keys == docs.Keys
    ensures forall id :: id in docs ==> Sizes(docs, sources, indexer)[id] == if docs[id].source in sources then indexer(id) else None
  {
  }

  lemma {:induction false} SelectionWithin(order: seq<string>, docs: map<string, Doc>, force: bool)
    requires forall id :: id in order ==> id in docs
    requires forall i, j :: 0 <= i < j < |order| ==> order[i] != order[j]
    ensures forall id :: id in Selection(order, docs, force) <==> id in order && Due(docs[id], force)
    ensures var ids := Selection(order, docs, force); forall i, j :: 0 <= i < j < |ids| ==> ids[i] != ids[j]
  {
    if |order| > 0 {
      var front := order[..|order| - 1];
      SelectionWithin(front, docs, force);
      assert order[|order| - 1] !in Selection(front, docs, force);
    }
  }

  lemma NothingDone(docs: map<string, Doc>, chunks: seq<Chunk>, sizes: map<string, Option<nat>>, version: nat)
    requires sizes.Keys == docs.Keys
    ensures PassDone(docs, docs, [], sizes)
    ensures chunks + NewChunks([], sizes, version) == chunks
  {
  }

  // The pass has not touched a document that is not among those processed.
  lemma PassReads(before: map<string, Doc>, docs: map<string, Doc>, front: seq<string>, sizes: map<string, Option<nat>>, id: string)
    requires PassDone(before, docs, front, sizes) && id !in front && id in before
    ensures docs.Keys == before.Keys == sizes.Keys && docs[id] == before[id]
  {
  }

  lemma PassRound(before: map<string, Doc>, docs: map<string, Doc>, docs': map<string, Doc>, front: seq<string>, id: string,
                  sizes: map<string, Option<nat>>)
    requires PassDone(before, docs, front, sizes) && id !in front && id in docs && id in sizes
    requires docs' == docs[id := Processed(docs[id], sizes[id])]
    ensures PassDone(before, docs', front + [id], sizes)
  {
    hide Processed;
  }

  lemma ChunksRound(front: seq<string>, id: string, sizes: map<string, Option<nat>>, version: nat)
    requires id in sizes && forall q :: q in front ==> q in sizes
    ensures NewChunks(front + [id], sizes, version) ==
            NewChunks(front, sizes, version) + (if sizes[id].Some? then Repeat(Chunk(id, version), sizes[id].value) else [])
  {
    assert (front + [id])[..|front|] == front;
  }

  lemma CountedStep(chunks: seq<Chunk>, c: Chunk, docs: map<string, Doc>, version: Option<nat>)
    ensures CountedDocuments(chunks + [c], docs, version) ==
            CountedDocuments(chunks, docs, version) + (if Counted(c, docs, version) then {c.document} else {})
  {
  }

  lemma {:induction false} NewChunksVersion(ids: seq<string>, sizes: map<string, Option<nat>>, version: nat)
    requires forall id :: id in ids ==> id in sizes
    ensures forall c :: c in NewChunks(ids, sizes, version) ==> c.version == version && c.document in ids
  {
    if |ids| > 0 {
      NewChunksVersion(ids[..|ids| - 1], sizes, version);
    }
  }

  lemma {:induction false} WithoutAbsent(chunks: seq<Chunk>, c: Chunk)
    requires c !in chunks
    ensures Without(chunks, c) == chunks
  {
    if |chunks| > 0 {
      WithoutAbsent(chunks[..|chunks| - 1], c);
    }
  }

  lemma {:induction false} CountConcat(a: seq<Chunk>, b: seq<Chunk>, docs: map<string, Doc>, version: Option<nat>)
    ensures CountChunks(a + b, docs, version) == CountChunks(a, docs, version) + CountChunks(b, docs, version)
  {
    hide Counted;
    if |b| == 0 {
      assert a + b == a;
    } else {
      assert (a + b)[..|a + b| - 1] == a + b[..|b| - 1];
      CountConcat(a, b[..|b| - 1], docs, version);
    }
  }

  lemma {:induction false} CountRepeat(c: Chunk, n: nat, docs: map<string, Doc>, version: Option<nat>)
    ensures CountChunks(Repeat(c, n), docs, version) == if Counted(c, docs, version) then n else 0
  {
    hide Counted;
    if n > 0 {
      CountRepeat(c, n - 1, docs, version);
      assert Repeat(c, n)[..n - 1] == Repeat(c, n - 1);
    }
  }

  lemma {:induction false} CountNone(chunks: seq<Chunk>, docs: map<string, Doc>, version: nat)
    requires forall c :: c in chunks ==> c.version < version
    ensures CountChunks(chunks, docs, Some(version)) == 0
  {
    if |chunks| > 0 {
      CountNone(chunks[..|chunks| - 1], docs, version);
    }
  }

  function CountUpTo(chunks: seq<Chunk>, docs: map<string, Doc>, n: nat): nat {
    if n == 0 then 0 else CountUpTo(chunks, docs, n - 1) + CountChunks(chunks, docs, Some(n - 1))
  }

  lemma {:induction false} NoneCounted(docs: map<string, Doc>, n: nat)
    ensures CountUpTo([], docs, n) == 0
  {
    if n > 0 {
      NoneCounted(docs, n - 1);
    }
  }

  lemma {:induction false} OneMoreCounted(chunks: seq<Chunk>, c: Chunk, docs: map<string, Doc>, n: nat)
    ensures CountUpTo(chunks + [c], docs, n) ==
            CountUpTo(chunks, docs, n) + (if c.version < n && Counted(c, docs, None) then 1 else 0)
  {
    assert (chunks + [c])[..|chunks|] == chunks;
    if n > 0 {
      OneMoreCounted(chunks, c, docs, n - 1);
    }
  }

  // Without an index version the chunk count is the sum over all index versions: a document
  // that was indexed again counts once for each.
  lemma {:induction false} BaseCountAddsUp(chunks: seq<Chunk>, docs: map<string, Doc>, n: nat)
    requires forall c :: c in chunks ==> c.version < n
    ensures CountChunks(chunks, docs, None) == CountUpTo(chunks, docs, n)
  {
    hide Counted;
    if |chunks| == 0 {
      NoneCounted(docs, n);
    } else {
      var front, c := chunks[..|chunks| - 1], chunks[|chunks| - 1];
      BaseCountAddsUp(front, docs, n);
      OneMoreCounted(front, c, docs, n);
      assert front + [c] == chunks;
    }
  }

  // The processed documents are indexed exactly if they have a size.
  ghost predicate Settled(ids: seq<string>, sizes: map<string, Option<nat>>, docs: map<string, Doc>) {
    forall id :: id in ids ==> id in sizes && id in docs && (docs[id].status == Indexed <==> sizes[id].Some?)
  }

  lemma PassSettles(before: map<string, Doc>, docs: map<string, Doc>, ids: seq<string>, sizes: map<string, Option<nat>>)
    requires PassDone(before, docs, ids, sizes) && forall id :: id in ids ==> id in docs
    ensures Settled(ids, sizes, docs)
  {
  }

  lemma {:induction false} CountNew(ids: seq<string>, sizes: map<string, Option<nat>>, docs: map<string, Doc>, version: nat)
    requires Settled(ids, sizes, docs)
    ensures CountChunks(NewChunks(ids, sizes, version), docs, Some(version)) == Sum(ids, sizes)
  {
    if |ids| > 0 {
      var front, id := ids[..|ids| - 1], ids[|ids| - 1];
      CountNew(front, sizes, docs, version);
      if sizes[id].Some? {
        CountConcat(NewChunks(front, sizes, version), Repeat(Chunk(id, version), sizes[id].value), docs, Some(version));
        CountRepeat(Chunk(id, version), sizes[id].value, docs, Some(version));
      } else {
        assert NewChunks(front, sizes, version) + [] == NewChunks(front, sizes, version);
      }
    }
  }

  lemma {:induction false} DocumentsNew(ids: seq<string>, sizes: map<string, Option<nat>>, version: nat)
    requires forall id :: id in ids ==> id in sizes
    ensures forall id :: (exists c :: c in NewChunks(ids, sizes, version) && c.document == id) <==> id in NonEmpty(ids, sizes)
  {
    if |ids| > 0 {
      var front, id := ids[..|ids| - 1], ids[|ids| - 1];
      DocumentsNew(front, sizes, version);
      assert ids == front + [id];
      assert NonEmpty(ids, sizes) == NonEmpty(front, sizes) + (if sizes[id].Some? && sizes[id].value > 0 then {id} else {});
      if sizes[id].Some? && sizes[id].value > 0 {
        assert Repeat(Chunk(id, version), sizes[id].value)[0] == Chunk(id, version);
        assert Chunk(id, version) in NewChunks(ids, sizes, version);
      }
    }
  }

  // After a pass the chunk count of the new index is the sum of the sizes of its indexed
  // documents, and its document count is the number of those that have a chunk.
  lemma CountsAreSums(was: seq<Chunk>, ids: seq<string>, sizes: map<string, Option<nat>>, docs: map<string, Doc>, version: nat)
    requires Settled(ids, sizes, docs) && forall c :: c in was ==> c.version < version
    ensures CountChunks(was + NewChunks(ids, sizes, version), docs, Some(version)) == Sum(ids, sizes)
    ensures CountedDocuments(was + NewChunks(ids, sizes, version), docs, Some(version)) == NonEmpty(ids, sizes)
  {
    var made := NewChunks(ids, sizes, version);
    CountConcat(was, made, docs, Some(version));
    CountNone(was, docs, version);
    CountNew(ids, sizes, docs, version);
    NewChunksVersion(ids, sizes, version);
    DocumentsNew(ids, sizes, version);
    forall id
      ensures id in CountedDocuments(was + made, docs, Some(version)) <==> id in NonEmpty(ids, sizes)
    {
      if id in NonEmpty(ids, sizes) {
        var c :| c in made && c.document == id;
        assert c in was + made && Counted(c, docs, Some(version));
      }
    }
  }

  // The counters of the knowledge base speak of the documents of this pass only: when an
  // indexed document is not due, the new counters leave its chunks out.
  lemma EarlierDocumentsDropOut(was: seq<Chunk>, ids: seq<string>, sizes: map<string, Option<nat>>, docs: map<string, Doc>,
                                version: nat, earlier: string)
    requires Settled(ids, sizes, docs) && forall c :: c in was ==> c.version < version
    requires earlier in docs && docs[earlier].status == Indexed && earlier !in ids
    ensures earlier !in CountedDocuments(was + NewChunks(ids, sizes, version), docs, Some(version))
  {
    CountsAreSums(was, ids, sizes, docs, version);
  }

  // --- The store and the pass ----------------------------------------------------------------

  class KnowledgeStore {
    var order: seq<string>          // document ids, newest first
    var docs: map<string, Doc>
    var chunks: seq<Chunk>
    var indexes: seq<Index>         // index versions, in the order in which they were made
    var base: Base

    ghost predicate Valid()
      reads this
    {
      && (forall id :: id in order <==> id in docs)
      && (forall i, j :: 0 <= i < j < |order| ==> order[i] != order[j])
      && (forall c :: c in chunks ==> c.version < |indexes|)
    }

    constructor ()
      ensures Valid() && docs == map[] && chunks == [] && indexes == []
    {
      order, docs, chunks, indexes, base := [], map[], [], [], Base(Idle, 0, 0, false, None);
    }

    method Mark(id: string, status: DocStatus)
      requires id in docs
      modifies this`docs
      ensures docs == old(docs)[id := old(docs)[id].(status := status)]
    {
      docs := docs[id := docs[id].(status := status)];
    }

    // The chunks the document has in this version are replaced.
    method ReplaceChunks(id: string, version: nat, n: nat)
      modifies this`chunks
      ensures chunks == Without(old(chunks), Chunk(id, version)) + Repeat(Chunk(id, version), n)
    {
      var kept: seq<Chunk> := [];
      for i := 0 to |chunks|
        invariant chunks == old(chunks) && kept == Without(chunks[..i], Chunk(id, version))
      {
        assert chunks[..i + 1][..i] == chunks[..i];
        if chunks[i] != Chunk(id, version) {
          kept := kept + [chunks[i]];
        }
      }
      assert chunks[..|chunks|] == chunks;
      chunks := kept + Repeat(Chunk(id, version), n);
    }

    method AnyFailed() returns (failed: bool)
      requires Valid()
      ensures failed <==> SomeFailed(docs)
    {
      for i := 0 to |order|
        invariant forall j :: 0 <= j < i ==> order[j] in docs && docs[order[j]].status != Failed
      {
        if docs[order[i]].status == Failed {
          return true;
        }
      }
      forall id | id in docs
        ensures docs[id].status != Failed
      {
        assert id in order;
      }
      failed := false;
    }

    method CountRows(version: Option<nat>) returns (n: nat, documents: set<string>)
      ensures n == CountChunks(chunks, docs, version)
      ensures documents == CountedDocuments(chunks, docs, version)
    {
      n, documents := 0, {};
      for i := 0 to |chunks|
        invariant n == CountChunks(chunks[..i], docs, version)
        invariant documents == CountedDocuments(chunks[..i], docs, version)
      {
        assert chunks[..i + 1][..i] == chunks[..i];
        assert chunks[..i + 1] == chunks[..i] + [chunks[i]];
        CountedStep(chunks[..i], chunks[i], docs, version);
        var c := chunks[i];
        if (version.None? || c.version == version.value) && c.document in docs && docs[c.document].status == Indexed {
          n := n + 1;
          documents := documents + {c.document};
        }
      }
      assert chunks[..|chunks|] == chunks;
    }

    // The counts of an index version or of the whole base go into the base, and into the index
    // version if one is given; an unknown one is an error.
    method RefreshIndexState(version: Option<nat>, now: nat) returns (ok: bool)
      requires Valid()
      modifies this`base, this`indexes
      ensures Valid() && (ok <==> version.None? || version.value < |old(indexes)|)
      ensures !ok ==> base == old(base) && indexes == old(indexes)
      ensures var documents, n, failed := CountDocuments(chunks, docs, version), CountChunks(chunks, docs, version), SomeFailed(docs);
              ok ==>
                && base == RefreshedBase(old(base), documents, n, failed, now)
                && indexes == if version.None? then old(indexes)
                              else old(indexes)[version.value := RefreshedIndex(old(indexes)[version.value], documents, n, failed, now)]
    {
      if version.Some? && version.value >= |indexes| {
        return false;
      }
      var n, withChunks := CountRows(version);
      var documents := if version.Some? then |withChunks| else |set id | id in docs && docs[id].status == Indexed|;
      var failed := AnyFailed();
      var health := if failed && n > 0 then Degraded else if failed then Broken else if n > 0 then Ready else Idle;
      var error := health == Degraded || health == Broken;
      base := base.(documents := documents, chunks := n, health := health, error := error);
      if n > 0 {
        base := base.(indexedAt := Some(now));
      }
      if version.Some? {
        var index := indexes[version.value].(status := Is(health), documents := documents, chunks := n, error := error);
        indexes := indexes[version.value := index.(completedAt := if health == Idle then None else Some(now))];
      }
      ok := true;
    }

    // One round of the document loop.
    method ProcessDocument(id: string, version: nat, sources: set<string>, indexer: string -> Option<nat>)
      requires id in docs && Chunk(id, version) !in chunks
      modifies this`docs, this`chunks
      ensures var size := if old(docs)[id].source in sources then indexer(id) else None;
              && docs == old(docs)[id := Processed(old(docs)[id], size)]
              && chunks == old(chunks) + (if size.Some? then Repeat(Chunk(id, version), size.value) else [])
    {
      ghost var before := docs;
      Mark(id, Parsing);
      var size := if docs[id].source in sources then indexer(id) else None;
      if size.Some? {
        Mark(id, Embedding);
        WithoutAbsent(chunks, Chunk(id, version));
        ReplaceChunks(id, version, size.value);
        docs := docs[id := docs[id].(status := Indexed, chunkCount := size.value)];
      } else {
        Mark(id, Failed);
      }
      assert docs == before[id := Processed(before[id], size)];
    }

    // The documents of the pass.
    method Select(force: bool) returns (ids: seq<string>)
      requires Valid()
      ensures ids == Selection(order, docs, force)
    {
      ids := [];
      for i := 0 to |order|
        invariant ids == Selection(order[..i], docs, force)
      {
        assert order[..i + 1][..i] == order[..i];
        if force || docs[order[i]].status in {Uploaded, Queued, Failed} {
          ids := ids + [order[i]];
        }
      }
      assert order[..|order|] == order;
    }

    // The document loop.
    method ProcessAll(ids: seq<string>, version: nat, sources: set<string>, indexer: string -> Option<nat>, ghost sizes: map<string, Option<nat>>)
      requires sizes.Keys == docs.Keys && forall id :: id in ids ==> id in docs
      requires forall id :: id in docs ==> sizes[id] == if docs[id].source in sources then indexer(id) else None
      requires forall i, j :: 0 <= i < j < |ids| ==> ids[i] != ids[j]
      requires forall c :: c in chunks ==> c.version < version
      modifies this`docs, this`chunks
      ensures PassDone(old(docs), docs, ids, sizes) && docs.Keys == old(docs).Keys
      ensures chunks == old(chunks) + NewChunks(ids, sizes, version)
    {
      hide Processed, PassDone, NewChunks, Repeat;
      ghost var before, was := docs, chunks;
      NothingDone(docs, chunks, sizes, version);
      for i := 0 to |ids|
        invariant PassDone(before, docs, ids[..i], sizes) && docs.Keys == before.Keys
        invariant forall id :: id in ids[..i] ==> id in sizes
        invariant chunks == was + NewChunks(ids[..i], sizes, version)
      {
        ghost var front, id := ids[..i], ids[i];
        assert ids[..i + 1] == front + [id];
        PassReads(before, docs, front, sizes, id);
        NewChunksVersion(front, sizes, version);
        ghost var docs0 := docs;
        ProcessDocument(ids[i], version, sources, indexer);
        PassRound(before, docs0, docs, front, id, sizes);
        ChunksRound(front, id, sizes, version);
      }
      assert ids[..|ids|] == ids;
    }

    // The pass over the documents that are due, into a new index version.
    method ProcessDue(ids: seq<string>, sources: set<string>, indexer: string -> Option<nat>, now: nat, ghost sizes: map<string, Option<nat>>)
      requires Valid() && sizes.Keys == docs.Keys && forall id :: id in ids ==> id in docs
      requires forall id :: id in docs ==> sizes[id] == if docs[id].source in sources then indexer(id) else None
      requires forall i, j :: 0 <= i < j < |ids| ==> ids[i] != ids[j]
      modifies this
      ensures Valid() && order == old(order) && PassDone(old(docs), docs, ids, sizes)
      ensures chunks == old(chunks) + NewChunks(ids, sizes, |old(indexes)|)
      ensures var documents, n, failed := |NonEmpty(ids, sizes)|, Sum(ids, sizes), SomeFailed(docs);
              && base == RefreshedBase(old(base), documents, n, failed, now)
              && indexes == old(indexes) + [RefreshedIndex(Index(|sources|, Indexing, |ids|, 0, false, None), documents, n, failed, now)]
    {
      hide PassDone, NewChunks, Sum, NonEmpty, CountChunks, CountedDocuments, Settled, RefreshedBase,
           RefreshedIndex, SomeFailed;
      ghost var before, was := docs, chunks;
      var version := |indexes|;
      indexes := indexes + [Index(|sources|, Indexing, |ids|, 0, false, None)];
      ProcessAll(ids, version, sources, indexer, sizes);
      NewChunksVersion(ids, sizes, version);
      var ok := RefreshIndexState(Some(version), now);
      PassSettles(before, docs, ids, sizes);
      CountsAreSums(was, ids, sizes, docs, version);
    }

    // process_pending_documents. With nothing due it makes sure that there is an index version.
    method ProcessPending(sources: set<string>, indexer: string -> Option<nat>, force: bool, now: nat)
      requires Valid()
      modifies this
      ensures Valid() && order == old(order)
      ensures var ids, sizes := Selection(order, old(docs), force), Sizes(old(docs), sources, indexer);
              && PassDone(old(docs), docs, ids, sizes)
              && chunks == old(chunks) + NewChunks(ids, sizes, |old(indexes)|)
              && (if ids == [] then
                    base == old(base) && indexes == if old(indexes) == [] then [Index(|sources|, Is(Idle), 0, 0, false, None)] else old(indexes)
                  else
                    var documents, n, failed := |NonEmpty(ids, sizes)|, Sum(ids, sizes), SomeFailed(docs);
                    && base == RefreshedBase(old(base), documents, n, failed, now)
                    && indexes == old(indexes) + [RefreshedIndex(Index(|sources|, Indexing, |ids|, 0, false, None), documents, n, failed, now)])
    {
      hide Sizes, PassDone, NewChunks, Sum, NonEmpty, Due, RefreshedBase, RefreshedIndex, SomeFailed;
      NothingDone(docs, chunks, Sizes(docs, sources, indexer), |indexes|);
      var ids := Select(force);
      SizesHas(docs, sources, indexer);
      SelectionWithin(order, docs, force);
      if ids != [] {
        ProcessDue(ids, sources, indexer, now, Sizes(docs, sources, indexer));
      } else if indexes == [] {
        indexes := [Index(|sources|, Is(Idle), 0, 0, false, None)];
      }
    }
  }
}
