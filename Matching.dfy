/** The matching façade `MatchingService` (src/core/matching_service.py) and the vector index
    it talks to (the `VectorIndex` protocol of src/core/interfaces.py): look up a company,
    ask the index for its neighbours, and hydrate each returned LEI from the identity store. */
module Matching {
  import opened Options
  import opened Models
  import opened SqliteRepository

  /** What the index answers: the matched LEIs and their similarity scores. */
  type Ranking = (seq<string>, seq<real>)

  /** The promise of the `VectorIndex` protocol: at most `k` items (none for a negative `k`),
      one score per item. */
  ghost predicate RankingWellFormed(ranking: (seq<seq<Option<Company>>>, Option<Company>, int) -> Ranking) {
    forall history, item, k ::
      && |ranking(history, item, k).0| == |ranking(history, item, k).1|
      && |ranking(history, item, k).0| <= if k < 0 then 0 else k
  }

  /** A vector index: the batches upserted so far, and a ranking the model cannot see that
      depends only on them, the query item and `k`. */
  class VectorIndex {
    /** Every `upsert_embedding` call's items, oldest first. */
    var upserted: seq<seq<Option<Company>>>
    const ranking: (seq<seq<Option<Company>>>, Option<Company>, int) -> Ranking

    constructor (ranking: (seq<seq<Option<Company>>>, Option<Company>, int) -> Ranking)
      requires RankingWellFormed(ranking)
      ensures this.ranking == ranking && upserted == []
    {
      this.ranking := ranking;
      upserted := [];
    }

    /** `upsert_embedding`: records the batch. */
    method UpsertEmbedding(items: seq<Option<Company>>)
      modifies this
      ensures upserted == old(upserted) + [items]
    {
      upserted := upserted + [items];
    }

    /** `retrieve_matches`: changes nothing, answers with the ranking for the current state. */
    method RetrieveMatches(item: Option<Company>, k: int) returns (leis: seq<string>, weights: seq<real>)
      requires RankingWellFormed(ranking)
      ensures (leis, weights) == ranking(upserted, item, k)
      ensures |leis| == |weights| && |leis| <= if k < 0 then 0 else k
    {
      leis, weights := ranking(upserted, item, k).0, ranking(upserted, item, k).1;
    }
  }

  class MatchingService {
    const companyRepo: SqliteCompanyRepository
    const vectorRepo: VectorIndex

    constructor (companyRepo: SqliteCompanyRepository, vectorRepo: VectorIndex)
      ensures this.companyRepo == companyRepo && this.vectorRepo == vectorRepo
    {
      this.companyRepo := companyRepo;
      this.vectorRepo := vectorRepo;
    }

    /** `find_isin`: exactly the store's answer for the ISIN, `None` included. */
    function FindIsin(isin: string): (r: Option<Company>)
      reads companyRepo
      ensures r.Some? <==> isin in companyRepo.isinLeiMap && companyRepo.isinLeiMap[isin] in companyRepo.leiMetadata
      ensures r == companyRepo.GetByIsin(isin)
    {
      companyRepo.GetByIsin(isin)
    }

    /** `find_matches`: the looked-up company (possibly `None`, with no not-found check) and `k`
        go to the index unchanged; the scores come back unchanged, and the i-th company is the
        store's answer for the i-th returned LEI, `None` for an unknown one. */
    method FindMatches(isin: string, k: int) returns (companies: seq<Option<Company>>, weights: seq<real>)
      requires RankingWellFormed(vectorRepo.ranking)
      ensures var ranked := vectorRepo.ranking(vectorRepo.upserted, companyRepo.GetByIsin(isin), k);
        && weights == ranked.1
        && |companies| == |ranked.0|
        && forall j :: 0 <= j < |companies| ==> companies[j] == companyRepo.GetByLei(ranked.0[j])
      ensures |companies| == |weights| && |companies| <= if k < 0 then 0 else k
    {
      var company := FindIsin(isin);
      var leis;
      leis, weights := vectorRepo.RetrieveMatches(company, k);
      companies := [];
      var j := 0;
      while j < |leis|
        invariant 0 <= j <= |leis|
        invariant |companies| == j
        invariant forall i :: 0 <= i < j ==> companies[i] == companyRepo.GetByLei(leis[i])
      {
        companies := companies + [companyRepo.GetByLei(leis[j])];
        j := j + 1;
      }
    }

    /** `insert_embedding`: upserts the one-element list holding the store's answer for the
        ISIN, even when that answer is `None`; the identity store is not touched. */
    method InsertEmbedding(isin: string)
      modifies vectorRepo
      ensures vectorRepo.upserted == old(vectorRepo.upserted) + [[companyRepo.GetByIsin(isin)]]
    {
      var companies := [FindIsin(isin)];
      vectorRepo.UpsertEmbedding(companies);
    }
  }
}
