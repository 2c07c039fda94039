/** The enrichment orchestrator `EnrichmentService` (src/core/enrichment_service.py): decides
    which companies need knowledge-base facts, asks the SPARQL endpoint, and writes hits back
    to the entity and to the identity store. */
module Enrichment {
  import opened Options
  import opened Models
  import opened Oracles
  import opened WikidataQueries
  import opened SqliteRepository

  /** The sector labels, in order. */
  function LabelsOf(sectors: seq<Sector>): (r: seq<string>)
    ensures |r| == |sectors|
    ensures forall i :: 0 <= i < |r| ==> r[i] == sectors[i].name
  {
    seq(|sectors|, i requires 0 <= i < |sectors| => sectors[i].name)
  }

  /** The entity after a lookup: enriched with the result's labels and its description
      (a missing description read as "") when the result has a truthy id, unchanged otherwise. */
  function ApplyInfo(c: Company, info: WikidataInfo): (r: Company)
    ensures SameIdentity(c, r)
    ensures Truthy(info.wikidataId) ==>
      r.description == info.description.GetOr("") && r.sectorLabels == LabelsOf(info.sectors)
    ensures !Truthy(info.wikidataId) ==> r == c
  {
    if Truthy(info.wikidataId) then c.Enrich(LabelsOf(info.sectors), info.description.GetOr(""))
    else c
  }

  /** The lei_metadata table after the same lookup: `enrich_company` runs on a hit only. */
  function PersistInfo(table: map<string, MetadataRow>, c: Company, info: WikidataInfo,
                       now: Timestamp): (t: map<string, MetadataRow>)
    ensures !Truthy(info.wikidataId) ==> t == table
    ensures Truthy(info.wikidataId) ==>
      t == EnrichedRows(table, c.lei, info.description.GetOr(""), LabelsOf(info.sectors), now)
  {
    if Truthy(info.wikidataId) then
      EnrichedRows(table, c.lei, info.description.GetOr(""), LabelsOf(info.sectors), now)
    else
      table
  }

  /** What is persisted is what is returned: reading the company back after the write gives
      the entity the orchestrator hands to its caller. */
  lemma PersistedMatchesReturned(table: map<string, MetadataRow>, c: Company, info: WikidataInfo,
                                 now: Timestamp)
    requires CompanyAt(table, c.lei) == Some(c)
    ensures CompanyAt(PersistInfo(table, c, info, now), c.lei) == Some(ApplyInfo(c, info))
  {
    if Truthy(info.wikidataId) {
      EnrichedRowReadsBack(table, c.lei, info.description.GetOr(""), LabelsOf(info.sectors), now, c.lei);
    }
  }

  /** Enrichment never takes sector data away from a company that gets past the gate: a hit
      with a description or a label leaves it with sector data. */
  lemma ApplyInfoGivesSectorData(c: Company, info: WikidataInfo)
    requires Truthy(info.wikidataId)
    requires info.description.GetOr("") != "" || info.sectors != []
    ensures ApplyInfo(c, info).HasSectorData()
  {
    if info.description.GetOr("") == "" {
      assert |LabelsOf(info.sectors)| > 0;
    }
  }

  /** The merged result for a LEI; a LEI without an entry reads as the empty result. */
  function Lookup(results: map<string, WikidataInfo>, lei: string): (r: WikidataInfo)
    ensures lei !in results ==> r == Empty
    ensures lei in results ==> r == results[lei]
  {
    if lei in results then results[lei] else Empty
  }

  /** The companies that need enrichment, in list order: companies of the list, none of
      which has sector data. */
  function Pending(cs: seq<Company>): (r: seq<Company>)
    ensures |r| <= |cs|
    ensures forall i :: 0 <= i < |r| ==> r[i] in cs && !r[i].HasSectorData()
  {
    if cs == [] then []
    else
      var last := cs[|cs| - 1];
      assert forall c :: c in cs[..|cs| - 1] ==> c in cs;
      Pending(cs[..|cs| - 1]) + if last.HasSectorData() then [] else [last]
  }

  /** The positions of the companies that need enrichment, in list order. */
  function PendingIndices(cs: seq<Company>): seq<int> {
    if cs == [] then []
    else
      var n := |cs| - 1;
      PendingIndices(cs[..n]) + if cs[n].HasSectorData() then [] else [n]
  }

  /** The k-th position holds the k-th pending company, which has no sector data. */
  lemma {:induction false} PendingIndicesAligned(cs: seq<Company>)
    ensures |PendingIndices(cs)| == |Pending(cs)|
    ensures forall k :: 0 <= k < |PendingIndices(cs)| ==>
      0 <= PendingIndices(cs)[k] < |cs| && cs[PendingIndices(cs)[k]] == Pending(cs)[k]
      && !Pending(cs)[k].HasSectorData()
  {
    if cs != [] {
      var n := |cs| - 1;
      PendingIndicesAligned(cs[..n]);
      assert forall i :: 0 <= i < n ==> cs[..n][i] == cs[i];
    }
  }

  /** The positions are listed in increasing order. */
  lemma {:induction false} PendingIndicesIncreasing(cs: seq<Company>)
    ensures forall k :: 0 <= k < |PendingIndices(cs)| ==> PendingIndices(cs)[k] < |cs|
    ensures forall a, b :: 0 <= a < b < |PendingIndices(cs)| ==> PendingIndices(cs)[a] < PendingIndices(cs)[b]
  {
    if cs != [] {
      PendingIndicesIncreasing(cs[..|cs| - 1]);
    }
  }

  /** Every company without sector data has its position listed. */
  lemma {:induction false} PendingIndicesCover(cs: seq<Company>)
    ensures forall i :: 0 <= i < |cs| && !cs[i].HasSectorData() ==> i in PendingIndices(cs)
  {
    if cs != [] {
      var n := |cs| - 1;
      PendingIndicesCover(cs[..n]);
      assert forall i :: 0 <= i < n ==> cs[..n][i] == cs[i];
      assert forall i :: i in PendingIndices(cs[..n]) ==> i in PendingIndices(cs);
    }
  }

  /** The positions pick out exactly the companies without sector data, in increasing
      order, and the company at the k-th position is the k-th pending company. */
  lemma PendingIndicesSpec(cs: seq<Company>)
    ensures |PendingIndices(cs)| == |Pending(cs)|
    ensures forall k :: 0 <= k < |PendingIndices(cs)| ==>
      0 <= PendingIndices(cs)[k] < |cs| && cs[PendingIndices(cs)[k]] == Pending(cs)[k]
      && !Pending(cs)[k].HasSectorData()
    ensures forall a, b :: 0 <= a < b < |PendingIndices(cs)| ==> PendingIndices(cs)[a] < PendingIndices(cs)[b]
    ensures forall i :: 0 <= i < |cs| && !cs[i].HasSectorData() ==> i in PendingIndices(cs)
  {
    PendingIndicesAligned(cs);
    PendingIndicesIncreasing(cs);
    PendingIndicesCover(cs);
  }

  /** The pending companies are exactly the companies without sector data. */
  lemma {:induction false} PendingMembers(cs: seq<Company>)
    ensures forall c :: c in Pending(cs) <==> c in cs && !c.HasSectorData()
  {
    if cs != [] {
      var n := |cs| - 1;
      PendingMembers(cs[..n]);
      assert forall c :: c in cs <==> c in cs[..n] || c == cs[n];
    }
  }

  /** The LEIs of the companies, in order. */
  function LeisOf(cs: seq<Company>): (r: seq<string>)
    ensures |r| == |cs|
    ensures forall i :: 0 <= i < |cs| ==> r[i] == cs[i].lei
  {
    seq(|cs|, i requires 0 <= i < |cs| => cs[i].lei)
  }

  /** The lei_metadata table after the write-back loop has handled `pending` in order. */
  function WriteBack(table: map<string, MetadataRow>, pending: seq<Company>,
                     results: map<string, WikidataInfo>, now: Timestamp): (t: map<string, MetadataRow>)
    ensures t.Keys == table.Keys
  {
    if pending == [] then table
    else
      var last := pending[|pending| - 1];
      PersistInfo(WriteBack(table, pending[..|pending| - 1], results, now), last,
                  Lookup(results, last.lei), now)
  }

  /** The write-back leaves the row of every LEI outside the pending companies untouched. */
  lemma {:induction false} WriteBackFrame(table: map<string, MetadataRow>, pending: seq<Company>,
                                          results: map<string, WikidataInfo>, now: Timestamp, lei: string)
    ensures (forall c :: c in pending ==> c.lei != lei) && lei in table ==>
      WriteBack(table, pending, results, now)[lei] == table[lei]
  {
    if pending != [] {
      var n := |pending| - 1;
      assert forall c :: c in pending[..n] ==> c in pending;
      WriteBackFrame(table, pending[..n], results, now, lei);
    }
  }

  /** One more company handled by the write-back loop. */
  lemma WriteBackStep(table: map<string, MetadataRow>, pending: seq<Company>, k: nat,
                      results: map<string, WikidataInfo>, now: Timestamp)
    requires k < |pending|
    ensures WriteBack(table, pending[..k + 1], results, now)
         == PersistInfo(WriteBack(table, pending[..k], results, now), pending[k], Lookup(results, pending[k].lei), now)
  {
    assert pending[..k + 1][..k] == pending[..k];
  }

  /** Reading one stored company back after the write-back loop: its lookup applied when it
      was among the pending companies, unchanged otherwise. */
  lemma {:induction false} WriteBackReadsBackAt(table: map<string, MetadataRow>, pending: seq<Company>,
                                                results: map<string, WikidataInfo>, now: Timestamp, c: Company)
    requires forall d :: d in pending ==> CompanyAt(table, d.lei) == Some(d)
    requires CompanyAt(table, c.lei) == Some(c)
    ensures CompanyAt(WriteBack(table, pending, results, now), c.lei)
         == if c in pending then Some(ApplyInfo(c, Lookup(results, c.lei))) else Some(c)
  {
    if pending != [] {
      var n := |pending| - 1;
      var last := pending[n];
      assert forall d :: d in pending <==> d in pending[..n] || d == last;
      WriteBackReadsBackAt(table, pending[..n], results, now, c);
      var before := WriteBack(table, pending[..n], results, now);
      var info := Lookup(results, last.lei);
      if Truthy(info.wikidataId) {
        EnrichedRowReadsBack(before, last.lei, info.description.GetOr(""), LabelsOf(info.sectors), now, c.lei);
      }
    }
  }

  /** The batch path persists what it returns: after the write-back loop, the store reads back
      each company of the list as the batch path returns it at its position. */
  lemma BatchPersistedMatchesReturned(table: map<string, MetadataRow>, cs: seq<Company>,
                                      results: map<string, WikidataInfo>, now: Timestamp, i: nat)
    requires forall c :: c in cs ==> CompanyAt(table, c.lei) == Some(c)
    requires i < |cs|
    ensures CompanyAt(WriteBack(table, Pending(cs), results, now), cs[i].lei) == Enriched(cs, results)[i]
  {
    PendingMembers(cs);
    WriteBackReadsBackAt(table, Pending(cs), results, now, cs[i]);
  }

  /** `BatchPersistedMatchesReturned` at every position, keyed by the returned company's LEI. */
  lemma BatchStoreReadsBack(table: map<string, MetadataRow>, cs: seq<Company>,
                            results: map<string, WikidataInfo>, now: Timestamp)
    requires forall c :: c in cs ==> CompanyAt(table, c.lei) == Some(c)
    ensures forall i :: 0 <= i < |cs| ==>
      && Enriched(cs, results)[i].Some?
      && CompanyAt(WriteBack(table, Pending(cs), results, now), Enriched(cs, results)[i].value.lei)
         == Enriched(cs, results)[i]
  {
    forall i | 0 <= i < |cs|
      ensures CompanyAt(WriteBack(table, Pending(cs), results, now), Enriched(cs, results)[i].value.lei)
           == Enriched(cs, results)[i]
    {
      BatchPersistedMatchesReturned(table, cs, results, now, i);
    }
  }

  /** When every listed position holds its company with the lookup applied and every other
      position its company unchanged, the list is the one the batch path returns. */
  lemma AllPositionsWritten(companies: seq<Company>, needing: seq<Company>, needingIndices: seq<int>,
                            results: map<string, WikidataInfo>, r: seq<Option<Company>>)
    requires |r| == |companies| && |needingIndices| == |needing|
    requires forall k :: 0 <= k < |needingIndices| ==>
      0 <= needingIndices[k] < |companies| && companies[needingIndices[k]] == needing[k]
    requires forall i :: 0 <= i < |companies| && !companies[i].HasSectorData() ==> i in needingIndices
    requires forall i :: 0 <= i < |companies| && companies[i].HasSectorData() ==> r[i] == Some(companies[i])
    requires forall j :: 0 <= j < |needing| ==>
      r[needingIndices[j]] == Some(ApplyInfo(needing[j], Lookup(results, needing[j].lei)))
    ensures r == Enriched(companies, results)
  {
    forall i | 0 <= i < |companies| ensures r[i] == Enriched(companies, results)[i] {
      if !companies[i].HasSectorData() {
        var j :| 0 <= j < |needingIndices| && needingIndices[j] == i;
      }
    }
  }

  lemma {:induction false} InChunkInConcat(cs: seq<seq<string>>, k: nat, lei: string)
    requires k < |cs| && lei in cs[k]
    ensures lei in Concat(cs)
  {
    if k > 0 {
      InChunkInConcat(cs[1..], k - 1, lei);
    }
  }

  /** A company that already has sector data is never sent to the knowledge base: every LEI
      in a batch request of the chunked lookup belongs to a company that needs enrichment. */
  lemma SentLeisNeedEnrichment(cs: seq<Company>, size: int, k: nat, lei: string)
    requires size > 0
    requires k < |Requests(Chunks(LeisOf(Pending(cs)), size))|
    requires lei in Requests(Chunks(LeisOf(Pending(cs)), size))[k].leis
    ensures exists c :: c in cs && c.lei == lei && !c.HasSectorData()
  {
    var leis := LeisOf(Pending(cs));
    ChunksPartition(leis, size);
    InChunkInConcat(Chunks(leis, size), k, lei);
    var i :| 0 <= i < |leis| && leis[i] == lei;
    PendingMembers(cs);
    assert Pending(cs)[i] in Pending(cs);
  }

  /** Every company that needs enrichment has its LEI in the chunked lookup's results. */
  lemma PendingAnswered(answer: SparqlRequest -> Response, cs: seq<Company>, size: int, i: nat)
    requires size > 0 && i < |cs| && !cs[i].HasSectorData()
    ensures cs[i].lei in Merged(answer, Chunks(LeisOf(Pending(cs)), size))
  {
    var p := Pending(cs);
    PendingMembers(cs);
    assert cs[i] in p;
    var j :| 0 <= j < |p| && p[j] == cs[i];
    assert LeisOf(p)[j] == cs[i].lei;
    ChunkedResultsTotal(answer, LeisOf(p), size, cs[i].lei);
  }

  /** The grouping loop of `_query_wikidata_batch`: the first binding carrying a LEI opens
      its entry (id and description), and every binding carrying it that has a label adds a
      sector; bindings without a LEI are skipped. */
  method GroupBindings(bindings: seq<Binding>) returns (grouped: map<string, WikidataInfo>)
    ensures grouped == ByLei(bindings)
  {
    grouped := map[];
    var j := 0;
    while j < |bindings|
      invariant 0 <= j <= |bindings|
      invariant grouped == Grouped(bindings[..j])
    {
      var binding := bindings[j];
      if binding.lei.Some? && binding.lei.value != "" {
        var lei := binding.lei.value;
        if lei !in grouped {
          grouped := grouped[lei := NewEntry(binding)];
        }
        if binding.industryLabel.Some? {
          var entry := grouped[lei];
          grouped := grouped[lei := entry.(sectors := entry.sectors + [Sector(binding.industryLabel.value)])];
        }
      }
      assert bindings[..j + 1][..j] == bindings[..j];
      j := j + 1;
    }
    assert bindings[..j] == bindings;
    GroupedIsByLei(bindings);
  }

  /** The first loop of `_ensure_enriched_company_by_isins`: every company is kept at its
      position, and those without sector data are listed, in order, with their positions. */
  method PartitionBySectorData(companies: seq<Company>)
    returns (enrichedCompanies: seq<Option<Company>>, needing: seq<Company>, needingIndices: seq<int>)
    ensures |enrichedCompanies| == |companies|
    ensures forall i :: 0 <= i < |companies| ==> enrichedCompanies[i] == Some(companies[i])
    ensures needing == Pending(companies)
    ensures needingIndices == PendingIndices(companies)
  {
    enrichedCompanies, needing, needingIndices := [], [], [];
    var idx := 0;
    while idx < |companies|
      invariant 0 <= idx <= |companies|
      invariant |enrichedCompanies| == idx
      invariant forall i :: 0 <= i < idx ==> enrichedCompanies[i] == Some(companies[i])
      invariant needing == Pending(companies[..idx])
      invariant needingIndices == PendingIndices(companies[..idx])
    {
      var company := companies[idx];
      assert companies[..idx + 1][..idx] == companies[..idx];
      enrichedCompanies := enrichedCompanies + [Some(company)];
      if !company.HasSectorData() {
        needing := needing + [company];
        needingIndices := needingIndices + [idx];
      }
      idx := idx + 1;
    }
    assert companies[..idx] == companies;
  }

  /** The relation between the identity store, the request log and the result of one
      single-item enrichment (`_ensure_enriched_company_by_isin` / `_by_lei`), given what the
      store returned for the key. */
  ghost predicate EnsuredOne(answer: SparqlRequest -> Response, found: Option<Company>, r: Option<Company>,
                             sentBefore: seq<SparqlRequest>, sentAfter: seq<SparqlRequest>,
                             rowsBefore: map<string, MetadataRow>, rowsAfter: map<string, MetadataRow>,
                             now: Timestamp)
  {
    match found
    case None => r == None && sentAfter == sentBefore && rowsAfter == rowsBefore
    case Some(c) =>
      if c.HasSectorData() then
        r == found && sentAfter == sentBefore && rowsAfter == rowsBefore
      else
        var info := MapSingle(answer(SingleLei(c.lei)));
        && sentAfter == sentBefore + [SingleLei(c.lei)]
        && r == Some(ApplyInfo(c, info))
        && rowsAfter == PersistInfo(rowsBefore, c, info, now)
  }

  /** The list `_ensure_enriched_company_by_isins` returns, given the merged lookup results:
      a company with sector data as it is, every other one with its lookup applied. */
  function Enriched(cs: seq<Company>, results: map<string, WikidataInfo>): (r: seq<Option<Company>>)
    ensures |r| == |cs|
    ensures forall i :: 0 <= i < |cs| && cs[i].HasSectorData() ==> r[i] == Some(cs[i])
    ensures forall i :: 0 <= i < |cs| ==> r[i].Some? && SameIdentity(r[i].value, cs[i])
  {
    seq(|cs|, i requires 0 <= i < |cs| =>
      Some(if cs[i].HasSectorData() then cs[i] else ApplyInfo(cs[i], Lookup(results, cs[i].lei))))
  }

  /** The requests the batch path sends for `cs`: none when every company has sector data,
      otherwise one batch per slice of the pending LEIs. */
  function SentFor(cs: seq<Company>, size: int): (r: seq<SparqlRequest>)
    requires size != 0 || Pending(cs) == []
  {
    if Pending(cs) == [] then [] else Requests(Chunks(LeisOf(Pending(cs)), size))
  }

  /** The merged lookup results of the batch path for `cs` (empty when nothing is sent). */
  function BatchLookup(answer: SparqlRequest -> Response, cs: seq<Company>, size: int): map<string, WikidataInfo>
    requires size != 0 || Pending(cs) == []
  {
    if Pending(cs) == [] then map[] else Merged(answer, Chunks(LeisOf(Pending(cs)), size))
  }

  class EnrichmentService {
    const companyRepo: SqliteCompanyRepository
    const batchSize: int
    /** The retry-configured HTTP session to the SPARQL endpoint, owned by this service. */
    const session: Oracle<SparqlRequest, Response>

    /** The batch size defaults to 30. */
    constructor (companyRepo: SqliteCompanyRepository, session: Oracle<SparqlRequest, Response>, batchSize: int := 30)
      ensures this.companyRepo == companyRepo && this.session == session && this.batchSize == batchSize
    {
      this.companyRepo := companyRepo;
      this.session := session;
      this.batchSize := batchSize;
    }

    /** `_query_wikidata`: one request, and the mapping of its response. */
    method QueryWikidata(lei: string) returns (info: WikidataInfo)
      modifies session
      ensures session.asked == old(session.asked) + [SingleLei(lei)]
      ensures info == MapSingle(session.answer(SingleLei(lei)))
    {
      var response := session.Ask(SingleLei(lei));
      info := MapSingle(response);
    }

    /** `_query_wikidata_batch`: no request for no LEIs; otherwise one request, grouped by
        LEI, completed with empty results for the requested LEIs the response lacks. */
    method QueryWikidataBatch(leis: seq<string>) returns (results: map<string, WikidataInfo>)
      modifies session
      ensures leis == [] ==> session.asked == old(session.asked)
      ensures leis != [] ==> session.asked == old(session.asked) + [LeiBatch(leis)]
      ensures results == BatchResult(leis, session.answer(LeiBatch(leis)))
    {
      if leis == [] {
        return map[];
      }
      var response := session.Ask(LeiBatch(leis));
      match response {
        case RequestFailed =>
          results := map l | l in leis :: Empty;
        case Answered(bindings) =>
          results := GroupBindings(bindings);
          ghost var grouped := results;
          var k := 0;
          while k < |leis|
            invariant 0 <= k <= |leis|
            invariant results == Completed(grouped, leis[..k])
            invariant session.asked == old(session.asked) + [LeiBatch(leis)]
          {
            assert leis[..k + 1][..k] == leis[..k];
            if leis[k] !in results {
              results := results[leis[k] := Empty];
            }
            k := k + 1;
          }
          assert leis[..k] == leis;
      }
    }

    /** `_chunked_query_wikidata`: one batch request per consecutive slice, results merged
        with later slices overwriting earlier ones. */
    method ChunkedQueryWikidata(leis: seq<string>, chunkSize: int) returns (results: map<string, WikidataInfo>)
      requires chunkSize != 0
      modifies session
      ensures session.asked == old(session.asked) + Requests(Chunks(leis, chunkSize))
      ensures results == Merged(session.answer, Chunks(leis, chunkSize))
    {
      results := map[];
      if chunkSize < 0 {
        // range(0, len(leis), chunk_size) is empty for a negative step
        return;
      }
      ghost var done: seq<seq<string>> := [];
      var i := 0;
      while i < |leis|
        invariant 0 <= i
        invariant ChunksFrom(leis, chunkSize, 0) == done + ChunksFrom(leis, chunkSize, i)
        invariant session.asked == old(session.asked) + Requests(done)
        invariant results == Merged(session.answer, done)
        decreases |leis| - i
      {
        var chunk := leis[i..if i + chunkSize < |leis| then i + chunkSize else |leis|];
        MergedAppend(session.answer, done, chunk);
        AppendAssociative(done, [chunk], ChunksFrom(leis, chunkSize, i + chunkSize));
        AppendAssociative(old(session.asked), Requests(done), [LeiBatch(chunk)]);
        var chunkResults := QueryWikidataBatch(chunk);
        results := results + chunkResults;
        done := done + [chunk];
        i := i + chunkSize;
      }
      assert done + ChunksFrom(leis, chunkSize, i) == done;
      ChunksFromIsChunks(leis, chunkSize, 0);
      assert leis[0..] == leis;
    }

    /** The step the three enrichment paths share: on a hit (truthy id) the company is
        enriched with the result's labels and description and the same values are written to
        its lei_metadata row; on a miss nothing changes. */
    method ApplyAndPersist(company: Company, wikidataData: WikidataInfo, now: Timestamp) returns (c: Company)
      requires companyRepo.Valid()
      modifies companyRepo
      ensures companyRepo.Valid()
      ensures companyRepo.isinLeiMap == old(companyRepo.isinLeiMap)
      ensures companyRepo.scanOrder == old(companyRepo.scanOrder)
      ensures companyRepo.leiMetadata == PersistInfo(old(companyRepo.leiMetadata), company, wikidataData, now)
      ensures c == ApplyInfo(company, wikidataData)
    {
      c := company;
      if Truthy(wikidataData.wikidataId) {
        var description := wikidataData.description.GetOr("");
        var labels := LabelsOf(wikidataData.sectors);
        c := c.Enrich(labels, description);
        companyRepo.EnrichCompany(c.lei, description, labels, now);
      }
    }

    /** `_ensure_enriched_company_by_isin`: returns early when the ISIN does not resolve or
        the company already has sector data; otherwise queries once, and enriches and persists
        only on a hit. */
    method EnsureEnrichedCompanyByIsin(isin: string, now: Timestamp) returns (r: Option<Company>)
      requires companyRepo.Valid()
      modifies companyRepo, session
      ensures companyRepo.Valid()
      ensures companyRepo.isinLeiMap == old(companyRepo.isinLeiMap)
      ensures companyRepo.scanOrder == old(companyRepo.scanOrder)
      ensures EnsuredOne(session.answer, old(companyRepo.GetByIsin(isin)), r, old(session.asked), session.asked,
                         old(companyRepo.leiMetadata), companyRepo.leiMetadata, now)
    {
      var company := companyRepo.GetByIsin(isin);
      if company.None? {
        return None;
      }
      if company.value.HasSectorData() {
        return company;
      }
      var wikidataData := QueryWikidata(company.value.lei);
      var c := ApplyAndPersist(company.value, wikidataData, now);
      return Some(c);
    }

    /** `_ensure_enriched_company_by_lei`: the same as the ISIN path, keyed by LEI. */
    method EnsureEnrichedCompanyByLei(lei: string, now: Timestamp) returns (r: Option<Company>)
      requires companyRepo.Valid()
      modifies companyRepo, session
      ensures companyRepo.Valid()
      ensures companyRepo.isinLeiMap == old(companyRepo.isinLeiMap)
      ensures companyRepo.scanOrder == old(companyRepo.scanOrder)
      ensures EnsuredOne(session.answer, old(companyRepo.GetByLei(lei)), r, old(session.asked), session.asked,
                         old(companyRepo.leiMetadata), companyRepo.leiMetadata, now)
    {
      var company := companyRepo.GetByLei(lei);
      if company.None? {
        return None;
      }
      if company.value.HasSectorData() {
        return company;
      }
      var wikidataData := QueryWikidata(company.value.lei);
      var c := ApplyAndPersist(company.value, wikidataData, now);
      return Some(c);
    }

    /** `_ensure_enriched_company_by_isins`: one store lookup; companies with sector data are
        kept as they are; the others go to a single chunked lookup (made only when there is at
        least one), and each hit is enriched and persisted and written back at its position. */
    method EnsureEnrichedCompaniesByIsins(isins: seq<string>, now: Timestamp) returns (r: seq<Option<Company>>)
      requires companyRepo.Valid()
      requires batchSize != 0 || Pending(companyRepo.GetByIsins(isins)) == []
      modifies companyRepo, session
      ensures companyRepo.Valid()
      ensures companyRepo.isinLeiMap == old(companyRepo.isinLeiMap)
      ensures companyRepo.scanOrder == old(companyRepo.scanOrder)
      ensures var cs := old(companyRepo.GetByIsins(isins));
        var results := BatchLookup(session.answer, cs, batchSize);
        && r == Enriched(cs, results)
        && session.asked == old(session.asked) + SentFor(cs, batchSize)
        && companyRepo.leiMetadata == WriteBack(old(companyRepo.leiMetadata), Pending(cs), results, now)
      ensures forall i :: 0 <= i < |r| ==> r[i].Some? && companyRepo.GetByLei(r[i].value.lei) == r[i]
    {
      var companies := companyRepo.GetByIsins(isins);
      ghost var table := companyRepo.leiMetadata;
      companyRepo.GetByIsinsStored(isins);
      var enrichedCompanies, needing, needingIndices := PartitionBySectorData(companies);
      var wikidataResults: map<string, WikidataInfo> := map[];
      if needing != [] {
        var leisToQuery := LeisOf(needing);
        wikidataResults := ChunkedQueryWikidata(leisToQuery, batchSize);
        PendingIndicesSpec(companies);
        enrichedCompanies := WriteBackResults(companies, enrichedCompanies, needing, needingIndices, wikidataResults, now);
      } else {
        assert forall i :: 0 <= i < |companies| ==> companies[i].HasSectorData() by {
          PendingIndicesSpec(companies);
        }
      }
      r := enrichedCompanies;
      BatchStoreReadsBack(table, companies, wikidataResults, now);
    }

    /** The write-back loop of `_ensure_enriched_company_by_isins`: each company that needed
        enrichment and has a hit is enriched and persisted, and stored at its position. */
    method WriteBackResults(companies: seq<Company>, enrichedCompanies: seq<Option<Company>>,
                            needing: seq<Company>, needingIndices: seq<int>,
                            wikidataResults: map<string, WikidataInfo>, now: Timestamp)
      returns (r: seq<Option<Company>>)
      requires companyRepo.Valid()
      requires |enrichedCompanies| == |companies|
      requires forall i :: 0 <= i < |companies| ==> enrichedCompanies[i] == Some(companies[i])
      requires |needingIndices| == |needing|
      requires forall k :: 0 <= k < |needingIndices| ==>
        0 <= needingIndices[k] < |companies| && companies[needingIndices[k]] == needing[k]
        && !needing[k].HasSectorData()
      requires forall a, b :: 0 <= a < b < |needingIndices| ==> needingIndices[a] < needingIndices[b]
      requires forall i :: 0 <= i < |companies| && !companies[i].HasSectorData() ==> i in needingIndices
      modifies companyRepo
      ensures companyRepo.Valid()
      ensures companyRepo.isinLeiMap == old(companyRepo.isinLeiMap)
      ensures companyRepo.scanOrder == old(companyRepo.scanOrder)
      ensures companyRepo.leiMetadata == WriteBack(old(companyRepo.leiMetadata), needing, wikidataResults, now)
      ensures r == Enriched(companies, wikidataResults)
    {
      r := enrichedCompanies;
      var k := 0;
      while k < |needing|
        invariant 0 <= k <= |needing|
        invariant |r| == |companies|
        invariant forall i :: 0 <= i < |companies| && companies[i].HasSectorData() ==> r[i] == Some(companies[i])
        invariant forall j :: 0 <= j < k ==>
          r[needingIndices[j]] == Some(ApplyInfo(needing[j], Lookup(wikidataResults, needing[j].lei)))
        invariant forall j :: k <= j < |needing| ==> r[needingIndices[j]] == Some(needing[j])
        invariant companyRepo.Valid()
        invariant companyRepo.isinLeiMap == old(companyRepo.isinLeiMap)
        invariant companyRepo.scanOrder == old(companyRepo.scanOrder)
        invariant companyRepo.leiMetadata == WriteBack(old(companyRepo.leiMetadata), needing[..k], wikidataResults, now)
      {
        var i, company := needingIndices[k], needing[k];
        var wikidataData := Lookup(wikidataResults, company.lei);
        WriteBackStep(old(companyRepo.leiMetadata), needing, k, wikidataResults, now);
        company := ApplyAndPersist(company, wikidataData, now);
        r := r[i := Some(company)];
        k := k + 1;
      }
      assert needing[..k] == needing;
      AllPositionsWritten(companies, needing, needingIndices, wikidataResults, r);
    }
  }
}
