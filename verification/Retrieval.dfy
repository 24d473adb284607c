/**
  Ranking of the episodic hits and the precedent gate (src/aegis_services/rag_service/retrieval.py).
  The vector store's answers are inputs.
*/
module Retrieval {
  import opened Options
  import opened Sorting

  datatype Hit = Hit(id: string, score: real)

  const PRECEDENT_THRESHOLD := 0.75

  const SCORE: Hit -> real := (h: Hit) => h.score

  class EvidenceBundle {
    var runbooks: seq<Hit>
    var episodic: seq<Hit>

    /** The end of `retrieve`: the episodic hits are sorted in place before they are bundled. */
    constructor (runbooks: seq<Hit>, episodic: seq<Hit>)
      ensures this.runbooks == runbooks
      ensures this.episodic == SortDescending(episodic, SCORE)
    {
      this.runbooks := runbooks;
      this.episodic := SortDescending(episodic, SCORE);
    }
  }

  function BestPrecedent(episodic: seq<Hit>): Option<Hit> {
    if episodic == [] then None else Some(episodic[0])
  }

  predicate PrecedentGate(episodic: seq<Hit>, threshold: real) {
    var best := BestPrecedent(episodic);
    best.Some? && best.value.score >= threshold
  }

  /** Some hit, in whatever order the store returned them, reaches the threshold. */
  ghost predicate HasPrecedent(hits: seq<Hit>, threshold: real) {
    exists h :: h in hits && h.score >= threshold
  }

  lemma FirstIsBest(hits: seq<Hit>)
    requires Descending(hits, SCORE)
    ensures forall h :: h in hits ==> h.score <= hits[0].score
  {
    forall h | h in hits
      ensures h.score <= hits[0].score
    {
      var k :| 0 <= k < |hits| && hits[k] == h;
      assert k > 0 ==> SCORE(hits[0]) >= SCORE(hits[k]);
    }
  }

  lemma SameElements(xs: seq<Hit>, ys: seq<Hit>)
    requires multiset(xs) == multiset(ys)
    ensures forall h :: h in xs <==> h in ys
  {
    forall h
      ensures h in xs <==> h in ys
    {
      assert h in xs <==> h in multiset(xs);
      assert h in ys <==> h in multiset(ys);
    }
  }

  /** The best precedent is a hit, if there are any, and none scores higher. */
  lemma {:induction false} BestPrecedentIsBest(hits: seq<Hit>)
    ensures BestPrecedent(SortDescending(hits, SCORE)) == None <==> hits == []
    ensures var best := BestPrecedent(SortDescending(hits, SCORE));
      best.Some? ==> best.value in hits && forall h :: h in hits ==> h.score <= best.value.score
  {
    hide SortDescending;
    var sorted := SortDescending(hits, SCORE);
    SortIsDescending(hits, SCORE);
    FirstIsBest(sorted);
    SameElements(hits, sorted);
    assert hits != [] ==> hits[0] in hits;
    assert sorted != [] ==> sorted[0] in sorted;
  }

  /** Looking at the first hit after sorting decides about all of them. */
  lemma {:induction false} GateSeesAllHits(hits: seq<Hit>, threshold: real)
    ensures PrecedentGate(SortDescending(hits, SCORE), threshold) <==> HasPrecedent(hits, threshold)
  {
    hide SortDescending, BestPrecedent;
    BestPrecedentIsBest(hits);
  }
}
