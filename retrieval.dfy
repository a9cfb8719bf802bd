/** The retriever: a nearest-neighbour search over the indexed corpus whose
    hits are turned into context chunks by looking their ids up in the
    metadata store. The embedding and the vector index are one oracle,
    `search`, giving for a query and a count `k` the ids and similarities of
    the `k` best documents, best first. */
module Retrieval {

  datatype Option<T> = None | Some(value: T)

  /** One record of the metadata store, in index order. */
  datatype MetaRecord = MetaRecord(source: string, text: string)

  /** A retrieved passage with its similarity to the query. */
  datatype Chunk = Chunk(source: string, text: string, score: real)

  /** The answer of one index search: a row of ids and a row of similarities. */
  datatype SearchRows = SearchRows(ids: seq<int>, sims: seq<real>)

  /** The id the index gives for "no match". */
  const NoMatch: int := -1

  const DefaultTopK: nat := 3

  /** Pairing the two rows stops at the shorter one. */
  function Width(rows: SearchRows): nat
  {
    if |rows.ids| <= |rows.sims| then |rows.ids| else |rows.sims|
  }

  /** Every id is either the no-match id or a position of the metadata store. */
  predicate IdsIndexMeta(ids: seq<int>, metaCount: nat)
  {
    forall i :: 0 <= i < |ids| ==> ids[i] == NoMatch || 0 <= ids[i] < metaCount
  }

  /** The positions among the first `n` whose id is a real match, in order. */
  function Kept(ids: seq<int>, n: nat): (ps: seq<nat>)
    requires n <= |ids|
    ensures |ps| <= n
    ensures forall j :: 0 <= j < |ps| ==> ps[j] < n && ids[ps[j]] != NoMatch
    ensures forall j, l :: 0 <= j < l < |ps| ==> ps[j] < ps[l]
    ensures forall i :: 0 <= i < n && ids[i] != NoMatch ==> i in ps
  {
    if n == 0 then []
    else Kept(ids, n - 1) + (if ids[n - 1] == NoMatch then [] else [n - 1])
  }

  /** The chunk for position `i` of a search answer. */
  function ChunkAt(rows: SearchRows, meta: seq<MetaRecord>, i: nat): Chunk
    requires i < Width(rows) && 0 <= rows.ids[i] < |meta|
  {
    Chunk(meta[rows.ids[i]].source, meta[rows.ids[i]].text, rows.sims[i])
  }

  /** The chunks for the first `n` positions of a search answer, skipping the
      no-match id: what the retrieval loop has built after `n` rounds. */
  function Collect(rows: SearchRows, meta: seq<MetaRecord>, n: nat): seq<Chunk>
    requires n <= Width(rows) && IdsIndexMeta(rows.ids, |meta|)
  {
    if n == 0 then []
    else Collect(rows, meta, n - 1) + (if rows.ids[n - 1] == NoMatch then [] else [ChunkAt(rows, meta, n - 1)])
  }

  /** The j-th chunk collected is the chunk of the j-th position kept: the
      search order is preserved, and only no-match positions are dropped. */
  lemma {:induction false} CollectFollowsKept(rows: SearchRows, meta: seq<MetaRecord>, n: nat)
    requires n <= Width(rows) && IdsIndexMeta(rows.ids, |meta|)
    ensures |Collect(rows, meta, n)| == |Kept(rows.ids, n)|
    ensures forall j :: 0 <= j < |Kept(rows.ids, n)| ==>
      Collect(rows, meta, n)[j] == ChunkAt(rows, meta, Kept(rows.ids, n)[j])
  {
    if n > 0 {
      CollectFollowsKept(rows, meta, n - 1);
    }
  }

  class Retriever {
    /** The embedding model and vector index together: the ids and
        similarities of the `k` nearest documents to a query. */
    const search: (string, nat) -> SearchRows
    const meta: seq<MetaRecord>
    const topK: nat

    constructor (search: (string, nat) -> SearchRows, meta: seq<MetaRecord>)
      requires forall q: string, k: nat :: |search(q, k).ids| == k && |search(q, k).sims| == k && IdsIndexMeta(search(q, k).ids, |meta|)
      ensures this.search == search && this.meta == meta && topK == DefaultTopK
      ensures Valid()
    {
      this.search := search;
      this.meta := meta;
      this.topK := DefaultTopK;
    }

    /** The index and the metadata store were built together: a search for
        `k` documents answers `k` ids and `k` similarities, and every id is
        the no-match id or a position of the store. */
    ghost predicate Valid()
    {
      forall q: string, k: nat :: |search(q, k).ids| == k && |search(q, k).sims| == k
        && IdsIndexMeta(search(q, k).ids, |meta|)
    }

    /** The chunks a retrieval of `k` documents for `query` yields. */
    function Retrieved(query: string, k: nat): seq<Chunk>
      requires Valid()
    {
      Collect(search(query, k), meta, Width(search(query, k)))
    }

    /** `retrieve`: search for `requested` documents (or `topK` when none is
        requested) and turn every real match into a chunk, in search order. */
    method Retrieve(query: string, requested: Option<nat>) returns (out: seq<Chunk>)
      requires Valid()
      ensures out == Retrieved(query, if requested.Some? then requested.value else topK)
      ensures |out| <= (if requested.Some? then requested.value else topK)
    {
      var k := if requested.Some? then requested.value else topK;
      var rows := search(query, k);
      out := [];
      var i := 0;
      while i < Width(rows)
        invariant i <= Width(rows)
        invariant out == Collect(rows, meta, i)
      {
        if rows.ids[i] != NoMatch {
          var m := meta[rows.ids[i]];
          out := out + [Chunk(m.source, m.text, rows.sims[i])];
        }
        i := i + 1;
      }
      CollectFollowsKept(rows, meta, Width(rows));
    }

    /** `best_similarity`: the first similarity of a one-document search. */
    function BestSimilarity(query: string): real
      requires Valid()
    {
      search(query, 1).sims[0]
    }
  }

  /** What a retrieval yields, position by position: one chunk per real
      match, in search order, carrying the matched record's source and text
      and the paired similarity; the no-match id yields nothing. */
  lemma RetrievedShape(r: Retriever, query: string, k: nat)
    requires r.Valid()
    ensures var rows := r.search(query, k);
      var ps := Kept(rows.ids, k);
      |r.Retrieved(query, k)| == |ps| <= k
      && forall j :: 0 <= j < |ps| ==>
           rows.ids[ps[j]] != NoMatch && 0 <= rows.ids[ps[j]] < |r.meta|
           && r.Retrieved(query, k)[j] == Chunk(r.meta[rows.ids[ps[j]]].source, r.meta[rows.ids[ps[j]]].text, rows.sims[ps[j]])
  {
    var rows := r.search(query, k);
    assert Width(rows) == k;
    CollectFollowsKept(rows, r.meta, k);
  }

  /** The similarity used by the query gate is the top search similarity even
      when its id is the no-match id, where a one-document retrieval yields
      nothing; otherwise it is the score of the single retrieved chunk. */
  lemma BestSimilarityVsRetrieve(r: Retriever, query: string)
    requires r.Valid()
    ensures r.search(query, 1).ids[0] == NoMatch ==> r.Retrieved(query, 1) == []
    ensures r.search(query, 1).ids[0] != NoMatch ==>
      |r.Retrieved(query, 1)| == 1 && r.Retrieved(query, 1)[0].score == r.BestSimilarity(query)
  {
    var rows := r.search(query, 1);
    assert Width(rows) == 1;
    assert Collect(rows, r.meta, 0) == [];
  }
}
