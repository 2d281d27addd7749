/** Entity resolution: candidates from a vector search over known entities, optionally
    reordered by a reranker, and the best one picked
    (backend/app/core/entity_resolver.py). The Chroma collection and the Cohere reranker
    are foreign services and appear as functions from a request to a reply. */
module EntityResolver {
  import opened Values

  /** `ResolvedEntity`: a candidate name, its score and its metadata. */
  datatype ResolvedEntity = ResolvedEntity(name: string, score: real, metadata: Entries)

  // ---------------------------------------------------------------- the vector search

  /** What `collection.query(query_texts=[mention], n_results=top_k)` gives: the
      `documents`, `metadatas` and `distances` results, each a list of lists with one inner
      list per query text (a missing or empty result reads as `[[]]`), or an exception
      from the Chroma client. */
  datatype SearchReply =
    | SearchFailed
    | SearchResults(documents: seq<seq<string>>, metadatas: seq<seq<Option<Entries>>>, distances: seq<seq<real>>)

  /** The Chroma collection: the mention and `top_k` to a reply. */
  type Chroma = (string, int) -> SearchReply

  /** `(results.get(name) or [[]])[0]`: the results for the one query text. */
  function FirstList<T>(lists: seq<seq<T>>): seq<T> {
    if lists == [] then [] else lists[0]
  }

  /** `metadata or {}`. */
  function MetadataOr(m: Option<Entries>): Entries {
    if m.Some? then m.value else []
  }

  /** The mention itself as the only candidate, with the given score and no metadata. */
  function Fallback(mention: string, score: real): ResolvedEntity {
    ResolvedEntity(mention, score, [])
  }

  function Min3(a: nat, b: nat, c: nat): (m: nat)
    ensures m <= a && m <= b && m <= c
    ensures m == a || m == b || m == c
  {
    if a <= b && a <= c then a else if b <= c then b else c
  }

  /** The candidate for one search hit: the score is one minus the distance. */
  function Hit(doc: string, metadata: Option<Entries>, distance: real): ResolvedEntity {
    ResolvedEntity(doc, 1.0 - distance, MetadataOr(metadata))
  }

  /** `zip(documents, metadatas, distances)` turned into candidates. */
  function Hits(docs: seq<string>, metas: seq<Option<Entries>>, dists: seq<real>): seq<ResolvedEntity> {
    if docs == [] || metas == [] || dists == [] then []
    else [Hit(docs[0], metas[0], dists[0])] + Hits(docs[1..], metas[1..], dists[1..])
  }

  /** `zip` stops at the shortest list, and the k-th candidate comes from the k-th hit. */
  lemma {:induction false} HitsAt(docs: seq<string>, metas: seq<Option<Entries>>, dists: seq<real>)
    ensures |Hits(docs, metas, dists)| == Min3(|docs|, |metas|, |dists|)
    ensures forall k :: 0 <= k < |Hits(docs, metas, dists)| ==>
              Hits(docs, metas, dists)[k] == Hit(docs[k], metas[k], dists[k])
  {
    if docs != [] && metas != [] && dists != [] {
      var tail := Hits(docs[1..], metas[1..], dists[1..]);
      HitsAt(docs[1..], metas[1..], dists[1..]);
      forall k | 1 <= k < |Hits(docs, metas, dists)|
        ensures Hits(docs, metas, dists)[k] == Hit(docs[k], metas[k], dists[k])
      {
        assert Hits(docs, metas, dists)[k] == tail[k - 1];
        assert docs[1..][k - 1] == docs[k] && metas[1..][k - 1] == metas[k] && dists[1..][k - 1] == dists[k];
      }
    }
  }

  /** What `_search_chroma` returns. */
  function Candidates(chroma: Option<Chroma>, mention: string, topK: int): seq<ResolvedEntity> {
    if chroma.None? then [Fallback(mention, 1.0)]
    else
      match chroma.value(mention, topK)
      case SearchFailed => [Fallback(mention, 1.0)]
      case SearchResults(documents, metadatas, distances) =>
        var hits := Hits(FirstList(documents), FirstList(metadatas), FirstList(distances));
        if hits == [] then [Fallback(mention, 0.0)] else hits
  }

  /** `_search_chroma`: one candidate per hit, built in a loop. */
  method SearchChroma(chroma: Option<Chroma>, mention: string, topK: int) returns (candidates: seq<ResolvedEntity>)
    ensures candidates == Candidates(chroma, mention, topK)
  {
    if chroma.None? {
      return [Fallback(mention, 1.0)];
    }
    var reply := chroma.value(mention, topK);
    if reply.SearchFailed? {
      return [Fallback(mention, 1.0)];
    }
    var documents := FirstList(reply.documents);
    var metadatas := FirstList(reply.metadatas);
    var distances := FirstList(reply.distances);
    var n := Min3(|documents|, |metadatas|, |distances|);
    candidates := [];
    for i := 0 to n
      invariant |candidates| == i
      invariant forall k :: 0 <= k < i ==> candidates[k] == Hit(documents[k], metadatas[k], distances[k])
    {
      candidates := candidates + [Hit(documents[i], metadatas[i], distances[i])];
    }
    HitsAt(documents, metadatas, distances);
    if candidates == [] {
      candidates := candidates + [Fallback(mention, 0.0)];
    }
  }

  /** The search never comes back empty: without a collection, or when the query throws,
      the mention itself is the one candidate with score 1; with results there is one
      candidate per hit of the shortest result list, scored one minus its distance; with
      no hits the mention is the one candidate with score 0. */
  lemma CandidatesCases(chroma: Option<Chroma>, mention: string, topK: int)
    ensures Candidates(chroma, mention, topK) != []
    ensures chroma.None? || chroma.value(mention, topK).SearchFailed? ==>
              Candidates(chroma, mention, topK) == [Fallback(mention, 1.0)]
    ensures chroma.Some? && chroma.value(mention, topK).SearchResults? ==>
              var reply := chroma.value(mention, topK);
              var docs := FirstList(reply.documents);
              var metas := FirstList(reply.metadatas);
              var dists := FirstList(reply.distances);
              var n := Min3(|docs|, |metas|, |dists|);
              var c := Candidates(chroma, mention, topK);
              && (n == 0 ==> c == [Fallback(mention, 0.0)])
              && (n > 0 ==> |c| == n && forall k :: 0 <= k < n ==> c[k] == Hit(docs[k], metas[k], dists[k]))
  {
    if chroma.Some? && chroma.value(mention, topK).SearchResults? {
      var reply := chroma.value(mention, topK);
      HitsAt(FirstList(reply.documents), FirstList(reply.metadatas), FirstList(reply.distances));
    }
  }

  // ---------------------------------------------------------------- the reranker

  /** One entry of the reranker's `results`: a position in the documents sent and its
      relevance. */
  datatype RerankItem = RerankItem(index: int, relevanceScore: real)

  datatype RerankReply = RerankFailed | RerankResults(results: seq<RerankItem>)

  /** The Cohere client: the mention and the documents to a reply. */
  type Cohere = (string, seq<Value>) -> RerankReply

  /** The documents sent to the reranker: `{"text": name, "metadata": metadata}` per candidate. */
  function Documents(cs: seq<ResolvedEntity>): seq<Value> {
    seq(|cs|, k requires 0 <= k < |cs| => Object([("text", Str(cs[k].name)), ("metadata", Object(cs[k].metadata))]))
  }

  /** Does the item point at one of the candidates? */
  predicate Points(item: RerankItem, cs: seq<ResolvedEntity>) {
    0 <= item.index < |cs|
  }

  /** The candidate an item points at, with the item's relevance as its score. */
  function Rescored(item: RerankItem, cs: seq<ResolvedEntity>): ResolvedEntity
    requires Points(item, cs)
  {
    var c := cs[item.index];
    ResolvedEntity(c.name, item.relevanceScore, c.metadata)
  }

  /** The loop of `_rerank_with_cohere` over `response.results`. */
  function Merge(items: seq<RerankItem>, cs: seq<ResolvedEntity>): seq<ResolvedEntity>
    decreases |items|
  {
    if items == [] then []
    else
      var last := items[|items| - 1];
      var front := Merge(items[..|items| - 1], cs);
      if Points(last, cs) then front + [Rescored(last, cs)] else front
  }

  /** The merge follows the reranker's order: merging two runs of items is merging each
      and concatenating; a single item contributes its candidate or, when its index is
      unknown, nothing. */
  lemma {:induction false} MergeAppend(a: seq<RerankItem>, b: seq<RerankItem>, cs: seq<ResolvedEntity>)
    ensures Merge(a + b, cs) == Merge(a, cs) + Merge(b, cs)
    ensures |b| == 1 ==> Merge(b, cs) == if Points(b[0], cs) then [Rescored(b[0], cs)] else []
    decreases |b|
  {
    if b == [] {
      assert a + b == a;
    } else {
      var front := b[..|b| - 1];
      assert (a + b)[..|a + b| - 1] == a + front;
      assert (a + b)[|a + b| - 1] == b[|b| - 1];
      MergeAppend(a, front, cs);
      if |b| == 1 {
        assert front == [];
      }
    }
  }

  /** The merge is empty exactly when no item points at a candidate. */
  lemma {:induction false} MergeEmpty(items: seq<RerankItem>, cs: seq<ResolvedEntity>)
    ensures Merge(items, cs) == [] <==> forall i :: 0 <= i < |items| ==> !Points(items[i], cs)
    decreases |items|
  {
    if items != [] {
      var front := items[..|items| - 1];
      MergeEmpty(front, cs);
      assert forall i :: 0 <= i < |front| ==> front[i] == items[i];
    }
  }

  /** `e` is the candidate one of the items points at, rescored. */
  predicate FromItem(e: ResolvedEntity, items: seq<RerankItem>, cs: seq<ResolvedEntity>) {
    exists i :: 0 <= i < |items| && Points(items[i], cs) && e == Rescored(items[i], cs)
  }

  /** Every merged entity is the candidate some item points at, with that candidate's
      name and metadata and the item's relevance as its score. */
  lemma {:induction false} MergeFrom(items: seq<RerankItem>, cs: seq<ResolvedEntity>)
    ensures forall k :: 0 <= k < |Merge(items, cs)| ==> FromItem(Merge(items, cs)[k], items, cs)
    decreases |items|
  {
    if items != [] {
      var front := items[..|items| - 1];
      MergeFrom(front, cs);
      forall k | 0 <= k < |Merge(items, cs)|
        ensures FromItem(Merge(items, cs)[k], items, cs)
      {
        if k < |Merge(front, cs)| {
          assert FromItem(Merge(front, cs)[k], front, cs);
          var i :| 0 <= i < |front| && Points(front[i], cs) && Merge(front, cs)[k] == Rescored(front[i], cs);
          assert front[i] == items[i];
          assert Merge(items, cs)[k] == Merge(front, cs)[k];
        } else {
          var i := |items| - 1;
          assert Points(items[i], cs) && Merge(items, cs)[k] == Rescored(items[i], cs);
        }
      }
    }
  }

  /** What `_rerank_with_cohere` returns: the merge, or the candidates unchanged when the
      reranker throws or the merge is empty. */
  function Rerank(reply: RerankReply, cs: seq<ResolvedEntity>): seq<ResolvedEntity> {
    if reply.RerankFailed? then cs
    else
      var merged := Merge(reply.results, cs);
      if merged == [] then cs else merged
  }

  /** `_rerank_with_cohere`: the reranked list built in a loop. */
  method RerankWithCohere(cohere: Cohere, mention: string, candidates: seq<ResolvedEntity>) returns (r: seq<ResolvedEntity>)
    ensures r == Rerank(cohere(mention, Documents(candidates)), candidates)
  {
    var reply := cohere(mention, Documents(candidates));
    if reply.RerankFailed? {
      return candidates;
    }
    var results := reply.results;
    var reranked := [];
    for i := 0 to |results|
      invariant reranked == Merge(results[..i], candidates)
    {
      var item := results[i];
      assert results[..i + 1][..i] == results[..i];
      if 0 <= item.index < |candidates| {
        reranked := reranked + [Rescored(item, candidates)];
      }
    }
    assert results[..|results|] == results;
    r := if reranked != [] then reranked else candidates;
  }

  /** A rerank keeps the list non-empty, and falls back to the candidates unchanged
      exactly when the reranker throws or none of its indices is known. */
  lemma RerankFallsBack(reply: RerankReply, cs: seq<ResolvedEntity>)
    requires cs != []
    ensures Rerank(reply, cs) != []
    ensures reply.RerankFailed? ==> Rerank(reply, cs) == cs
    ensures reply.RerankResults? && (forall i :: 0 <= i < |reply.results| ==> !Points(reply.results[i], cs)) ==>
              Rerank(reply, cs) == cs
    ensures reply.RerankResults? && (exists i :: 0 <= i < |reply.results| && Points(reply.results[i], cs)) ==>
              Rerank(reply, cs) == Merge(reply.results, cs) != []
  {
    if reply.RerankResults? {
      MergeEmpty(reply.results, cs);
    }
  }

  // ---------------------------------------------------------------- resolve

  /** The list `resolve` picks from: the candidates, reranked when a reranker is configured
      and there is more than one. */
  function Ranked(chroma: Option<Chroma>, cohere: Option<Cohere>, mention: string, topK: int): seq<ResolvedEntity> {
    var c := Candidates(chroma, mention, topK);
    if cohere.Some? && |c| > 1 then Rerank(cohere.value(mention, Documents(c)), c) else c
  }

  /** `resolve`: the first of the ranked candidates, or nothing when there are none. */
  method Resolve(chroma: Option<Chroma>, cohere: Option<Cohere>, mention: string, topK: int)
    returns (e: Option<ResolvedEntity>)
    ensures e.None? <==> Candidates(chroma, mention, topK) == []
    ensures e.Some? ==> Ranked(chroma, cohere, mention, topK) != [] && e.value == Ranked(chroma, cohere, mention, topK)[0]
  {
    var candidates := SearchChroma(chroma, mention, topK);
    if candidates == [] {
      return None;
    }
    if cohere.Some? && |candidates| > 1 {
      candidates := RerankWithCohere(cohere.value, mention, candidates);
    }
    return Some(candidates[0]);
  }

  /** The same entity, whatever its score. */
  predicate SameEntity(a: ResolvedEntity, b: ResolvedEntity) {
    a.name == b.name && a.metadata == b.metadata
  }

  /** One of the candidates is the same entity as `e`. */
  predicate AmongCandidates(e: ResolvedEntity, c: seq<ResolvedEntity>) {
    exists j :: 0 <= j < |c| && SameEntity(e, c[j])
  }

  /** The ranked list is never empty, so `resolve` always finds an entity; every ranked
      entity carries the name and metadata of one of the candidates. */
  lemma RankedFromCandidates(chroma: Option<Chroma>, cohere: Option<Cohere>, mention: string, topK: int)
    ensures Ranked(chroma, cohere, mention, topK) != []
    ensures forall k :: 0 <= k < |Ranked(chroma, cohere, mention, topK)| ==>
              AmongCandidates(Ranked(chroma, cohere, mention, topK)[k], Candidates(chroma, mention, topK))
  {
    var c := Candidates(chroma, mention, topK);
    var r := Ranked(chroma, cohere, mention, topK);
    CandidatesCases(chroma, mention, topK);
    if cohere.Some? && |c| > 1 {
      var reply := cohere.value(mention, Documents(c));
      RerankFallsBack(reply, c);
      if reply.RerankResults? {
        MergeFrom(reply.results, c);
      }
    }
    forall k | 0 <= k < |r|
      ensures AmongCandidates(r[k], c)
    {
      if r == c {
        assert SameEntity(r[k], c[k]);
      } else {
        var reply := cohere.value(mention, Documents(c));
        assert r == Merge(reply.results, c);
        assert FromItem(r[k], reply.results, c);
        var i :| 0 <= i < |reply.results| && Points(reply.results[i], c) && r[k] == Rescored(reply.results[i], c);
        var j := reply.results[i].index;
        assert SameEntity(r[k], c[j]);
      }
    }
  }

  /** Without a collection the mention itself, with score 1 and no metadata, is resolved,
      whatever reranker is configured. */
  lemma ResolveWithoutChroma(cohere: Option<Cohere>, mention: string, topK: int)
    ensures Ranked(None, cohere, mention, topK) == [Fallback(mention, 1.0)]
  {
  }
}
