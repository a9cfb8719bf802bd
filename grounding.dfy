/** The grounding check: how well the generated answer is supported by the
    retrieved context, as the best similarity between the answer and any one
    context chunk. The embedding model and the cosine of two normalised
    embeddings are one oracle, `sim`. */
module Groundedness {
  import opened Retrieval

  const DefaultMinSim: real := 0.3

  function Max(x: real, y: real): real
  {
    if x >= y then x else y
  }

  class Grounding {
    /** Cosine similarity of the embeddings of two texts. */
    const sim: (string, string) -> real
    const minSim: real

    constructor (sim: (string, string) -> real, minSim: real := DefaultMinSim)
      ensures this.sim == sim && this.minSim == minSim
    {
      this.sim := sim;
      this.minSim := minSim;
    }

    /** The largest similarity between `answer` and a chunk of `ctx`. */
    function MaxSimilarity(answer: string, ctx: seq<Chunk>): (r: real)
      requires |ctx| > 0
      ensures forall c :: c in ctx ==> sim(answer, c.text) <= r
      ensures exists c :: c in ctx && r == sim(answer, c.text)
    {
      if |ctx| == 1 then sim(answer, ctx[0].text)
      else Max(sim(answer, ctx[0].text), MaxSimilarity(answer, ctx[1..]))
    }

    /** `grounded_similarity`: 0.0 for an empty context, otherwise the best
        similarity between the answer and a context chunk. */
    function GroundedSimilarity(answer: string, ctx: seq<Chunk>): (r: real)
      ensures |ctx| == 0 ==> r == 0.0
      ensures |ctx| > 0 ==> forall c :: c in ctx ==> sim(answer, c.text) <= r
      ensures |ctx| > 0 ==> exists c :: c in ctx && r == sim(answer, c.text)
    {
      if |ctx| == 0 then 0.0 else MaxSimilarity(answer, ctx)
    }
  }

  /** The texts of a context's chunks. */
  function Texts(ctx: seq<Chunk>): set<string>
  {
    set c | c in ctx :: c.text
  }

  lemma NoTextsIffEmpty(ctx: seq<Chunk>)
    ensures Texts(ctx) == {} <==> |ctx| == 0
  {
    if |ctx| > 0 {
      assert ctx[0].text in Texts(ctx);
    }
  }

  /** One half of SameTextsSameGrounding: every text of `ctx` is a text of
      `other`, so `other` does at least as well. */
  lemma TextsCovered(g: Grounding, answer: string, ctx: seq<Chunk>, other: seq<Chunk>)
    requires |ctx| > 0
    requires Texts(ctx) <= Texts(other)
    ensures g.GroundedSimilarity(answer, ctx) <= g.GroundedSimilarity(answer, other)
  {
    var r := g.GroundedSimilarity(answer, ctx);
    var c :| c in ctx && r == g.sim(answer, c.text);
    assert c.text in Texts(ctx);
    var d :| d in other && d.text == c.text;
  }

  /** Only the chunks' texts matter: two contexts with the same texts (in
      any order, any number of times, with any sources and scores) give the
      same grounding similarity. */
  lemma SameTextsSameGrounding(g: Grounding, answer: string, ctx: seq<Chunk>, other: seq<Chunk>)
    requires Texts(ctx) == Texts(other)
    ensures g.GroundedSimilarity(answer, ctx) == g.GroundedSimilarity(answer, other)
  {
    NoTextsIffEmpty(ctx);
    NoTextsIffEmpty(other);
    if |ctx| > 0 {
      TextsCovered(g, answer, ctx, other);
      TextsCovered(g, answer, other, ctx);
    }
  }

  /** Reordering the context does not change the grounding similarity. */
  lemma ReorderKeepsGrounding(g: Grounding, answer: string, ctx: seq<Chunk>, other: seq<Chunk>)
    requires multiset(ctx) == multiset(other)
    ensures g.GroundedSimilarity(answer, ctx) == g.GroundedSimilarity(answer, other)
  {
    assert forall c :: c in ctx <==> c in multiset(ctx);
    assert forall c :: c in other <==> c in multiset(other);
    assert Texts(ctx) == Texts(other);
    SameTextsSameGrounding(g, answer, ctx, other);
  }

  /** Adding chunks to a non-empty context never lowers the grounding
      similarity. (From the empty context it can: 0.0 is replaced by the new
      chunk's similarity, which may be negative.) */
  lemma MoreContextNoLess(g: Grounding, answer: string, ctx: seq<Chunk>, more: seq<Chunk>)
    requires |ctx| > 0
    requires forall c :: c in ctx ==> c in more
    ensures g.GroundedSimilarity(answer, ctx) <= g.GroundedSimilarity(answer, more)
  {
  }

  /** Appending one chunk to a non-empty context never lowers the grounding
      similarity. */
  lemma AddChunkNoLess(g: Grounding, answer: string, ctx: seq<Chunk>, c: Chunk)
    requires |ctx| > 0
    ensures g.GroundedSimilarity(answer, ctx) <= g.GroundedSimilarity(answer, ctx + [c])
  {
    MoreContextNoLess(g, answer, ctx, ctx + [c]);
  }
}
