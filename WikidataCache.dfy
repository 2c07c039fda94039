/** The knowledge-base cache (src/infrastructure/sqlite_wikidata_repository.py): the tables
    `wikidata_cache` (one row per LEI) and `company_sectors` (any number of rows per LEI), read
    and written with a cache-then-fetch discipline. */
module WikidataCache {
  import opened Options
  import opened Models
  import opened Oracles

  /** One sector as stored: its label (`name`) and its knowledge-base id. */
  datatype SectorFact = SectorFact(name: string, qid: string)

  /** One `wikidata_cache` row, without its key column `lei`. */
  datatype CacheRow = CacheRow(wikidataId: Option<string>, description: Option<string>, lastUpdated: Timestamp)

  /** One `company_sectors` row. The table has no key; rows are kept in insertion order. */
  datatype SectorRow = SectorRow(lei: string, name: string, qid: string)

  /** The dictionary `get_cached_wikidata` returns on a hit. */
  datatype CachedInfo = CachedInfo(wikidataId: Option<string>, description: Option<string>, sectors: seq<SectorFact>)

  /** The dictionary the external lookup returns; its `sectors` entry may be `None`. */
  datatype FetchedInfo = FetchedInfo(wikidataId: Option<string>, description: Option<string>, sectors: Option<seq<SectorFact>>)

  /** The sector rows of one LEI, in table order, as label and id pairs. */
  function SectorsFor(rows: seq<SectorRow>, lei: string): (r: seq<SectorFact>)
    ensures |r| <= |rows|
    ensures forall f :: f in r <==>
      exists row :: row in rows && row.lei == lei && f == SectorFact(row.name, row.qid)
  {
    if rows == [] then []
    else
      var n := |rows| - 1;
      assert forall row :: row in rows <==> row in rows[..n] || row == rows[n];
      SectorsFor(rows[..n], lei) + if rows[n].lei == lei then [SectorFact(rows[n].name, rows[n].qid)] else []
  }

  /** The table with every sector row of one LEI removed. */
  function Without(rows: seq<SectorRow>, lei: string): (r: seq<SectorRow>)
    ensures |r| <= |rows|
    ensures forall row :: row in r <==> row in rows && row.lei != lei
  {
    if rows == [] then []
    else
      var n := |rows| - 1;
      assert forall row :: row in rows <==> row in rows[..n] || row == rows[n];
      Without(rows[..n], lei) + if rows[n].lei == lei then [] else [rows[n]]
  }

  /** One sector row per given sector, all under the same LEI, in order. */
  function RowsOf(lei: string, sectors: seq<SectorFact>): (r: seq<SectorRow>)
    ensures |r| == |sectors|
    ensures forall i :: 0 <= i < |r| ==> r[i].lei == lei
  {
    seq(|sectors|, i requires 0 <= i < |sectors| => SectorRow(lei, sectors[i].name, sectors[i].qid))
  }

  /** The `company_sectors` table after saving `sectors` for `lei`: that LEI's old rows are
      deleted and the new ones appended (none when the list is `None` or empty). */
  function SavedRows(rows: seq<SectorRow>, lei: string, sectors: Option<seq<SectorFact>>): (r: seq<SectorRow>)
    ensures forall row :: row in r && row.lei != lei <==> row in rows && row.lei != lei
    ensures SectorsFor(r, lei) == sectors.GetOr([])
  {
    var s := sectors.GetOr([]);
    SectorsForAppend(Without(rows, lei), RowsOf(lei, s), lei);
    SectorsForWithout(rows, lei, lei);
    SectorsForRowsOf(lei, s, lei);
    Without(rows, lei) + RowsOf(lei, s)
  }

  lemma {:induction false} SectorsForAppend(a: seq<SectorRow>, b: seq<SectorRow>, lei: string)
    ensures SectorsFor(a + b, lei) == SectorsFor(a, lei) + SectorsFor(b, lei)
    decreases |b|
  {
    if b == [] {
      assert a + b == a;
    } else {
      var n := |b| - 1;
      assert (a + b)[..|a + b| - 1] == a + b[..n];
      SectorsForAppend(a, b[..n], lei);
    }
  }

  /** After the delete, no row of `lei` is left; the rows of every other LEI are as before. */
  lemma {:induction false} SectorsForWithout(rows: seq<SectorRow>, lei: string, other: string)
    ensures SectorsFor(Without(rows, lei), lei) == []
    ensures other != lei ==> SectorsFor(Without(rows, lei), other) == SectorsFor(rows, other)
  {
    if rows != [] {
      var n := |rows| - 1;
      SectorsForWithout(rows[..n], lei, other);
      var w := Without(rows[..n], lei);
      SectorsForAppend(w, if rows[n].lei == lei then [] else [rows[n]], lei);
      SectorsForAppend(w, if rows[n].lei == lei then [] else [rows[n]], other);
      assert [rows[n]][..0] == [];
    }
  }

  /** The inserted rows read back as exactly the saved sectors, in order; under any other
      LEI they read as nothing. */
  lemma {:induction false} SectorsForRowsOf(lei: string, sectors: seq<SectorFact>, other: string)
    ensures SectorsFor(RowsOf(lei, sectors), lei) == sectors
    ensures other != lei ==> SectorsFor(RowsOf(lei, sectors), other) == []
  {
    if sectors != [] {
      var n := |sectors| - 1;
      SectorsForRowsOf(lei, sectors[..n], other);
      assert RowsOf(lei, sectors)[..n] == RowsOf(lei, sectors[..n]);
      assert sectors[..n] + [sectors[n]] == sectors;
    }
  }

  /** Round trip of the sector table: after a save, the LEI's sectors are exactly the saved
      ones (as a sequence, hence also as a multiset); every other LEI's sectors are unchanged. */
  lemma SaveRoundTrip(rows: seq<SectorRow>, lei: string, sectors: Option<seq<SectorFact>>, other: string)
    ensures SectorsFor(SavedRows(rows, lei, sectors), lei) == sectors.GetOr([])
    ensures multiset(SectorsFor(SavedRows(rows, lei, sectors), lei)) == multiset(sectors.GetOr([]))
    ensures other != lei ==> SectorsFor(SavedRows(rows, lei, sectors), other) == SectorsFor(rows, other)
  {
    var s := sectors.GetOr([]);
    SectorsForAppend(Without(rows, lei), RowsOf(lei, s), lei);
    SectorsForAppend(Without(rows, lei), RowsOf(lei, s), other);
    SectorsForWithout(rows, lei, other);
    SectorsForRowsOf(lei, s, other);
  }

  /** The sector labels, in order. The cache's sectors carry a label and an id, unlike the
      label-only sectors of the enrichment results, hence a second accessor. */
  function Labels(sectors: seq<SectorFact>): (r: seq<string>)
    ensures |r| == |sectors|
    ensures forall i :: 0 <= i < |r| ==> r[i] == sectors[i].name
  {
    seq(|sectors|, i requires 0 <= i < |sectors| => sectors[i].name)
  }

  /** The sector ids, in order. */
  function Qids(sectors: seq<SectorFact>): (r: seq<string>)
    ensures |r| == |sectors|
    ensures forall i :: 0 <= i < |r| ==> r[i] == sectors[i].qid
  {
    seq(|sectors|, i requires 0 <= i < |sectors| => sectors[i].qid)
  }

  class SqliteWikidataRepository {
    /** `wikidata_cache`: LEI (primary key) -> the other columns. */
    var cache: map<string, CacheRow>
    /** `company_sectors`, in insertion order. */
    var sectorRows: seq<SectorRow>

    /** A repository over existing tables. */
    constructor (cache: map<string, CacheRow>, sectorRows: seq<SectorRow>)
      ensures this.cache == cache && this.sectorRows == sectorRows
    {
      this.cache := cache;
      this.sectorRows := sectorRows;
    }

    /** `get_cached_wikidata`: None exactly when the LEI has no cache row; on a hit, the row's
        id and description and one sector per sector row of the LEI. */
    function GetCachedWikidata(lei: string): (r: Option<CachedInfo>)
      reads this
      ensures r.None? <==> lei !in cache
      ensures r.Some? ==>
        && r.value.wikidataId == cache[lei].wikidataId
        && r.value.description == cache[lei].description
        && r.value.sectors == SectorsFor(sectorRows, lei)
    {
      if lei !in cache then None
      else Some(CachedInfo(cache[lei].wikidataId, cache[lei].description, SectorsFor(sectorRows, lei)))
    }

    /** `save_wikidata_information`: the cache row is inserted or replaced, then the LEI's sector
        rows replaced by the given ones. */
    method SaveWikidataInformation(lei: string, wikidataId: Option<string>, description: Option<string>,
                                   sectors: Option<seq<SectorFact>>, now: Timestamp)
      modifies this
      ensures cache == old(cache)[lei := CacheRow(wikidataId, description, now)]
      ensures sectorRows == SavedRows(old(sectorRows), lei, sectors)
      ensures GetCachedWikidata(lei) == Some(CachedInfo(wikidataId, description, sectors.GetOr([])))
      ensures forall other :: other != lei ==> GetCachedWikidata(other) == old(GetCachedWikidata(other))
    {
      cache := cache[lei := CacheRow(wikidataId, description, now)];
      ghost var before := sectorRows;
      sectorRows := Without(sectorRows, lei);
      if sectors.Some? && sectors.value != [] {
        sectorRows := sectorRows + RowsOf(lei, sectors.value);
      } else {
        assert sectorRows + RowsOf(lei, sectors.GetOr([])) == sectorRows;
      }
      SaveRoundTrip(before, lei, sectors, lei);
      forall other | other != lei
        ensures SectorsFor(sectorRows, other) == SectorsFor(before, other)
      {
        SaveRoundTrip(before, lei, sectors, other);
      }
    }

    /** `set_wikidata_info`: the external lookup is asked only on a cache miss, and whatever it
        returns is saved, so the LEI is a hit afterwards. The company's labels and the qids
        are taken from the same sector list (`None` read as empty), position by position. */
    method SetWikidataInfo(company: Company, lookup: Oracle<string, FetchedInfo>, now: Timestamp)
      returns (c: Company, qids: seq<string>)
      modifies this, lookup
      ensures SameIdentity(c, company) && c.description == company.description
      ensures |c.sectorLabels| == |qids|
      ensures old(GetCachedWikidata(company.lei)).Some? ==>
        && lookup.asked == old(lookup.asked)
        && cache == old(cache) && sectorRows == old(sectorRows)
        && c.sectorLabels == Labels(old(GetCachedWikidata(company.lei)).value.sectors)
        && qids == Qids(old(GetCachedWikidata(company.lei)).value.sectors)
      ensures old(GetCachedWikidata(company.lei)).None? ==>
        var fetched := lookup.answer(company.lei);
        && lookup.asked == old(lookup.asked) + [company.lei]
        && cache == old(cache)[company.lei := CacheRow(fetched.wikidataId, fetched.description, now)]
        && sectorRows == SavedRows(old(sectorRows), company.lei, fetched.sectors)
        && c.sectorLabels == Labels(fetched.sectors.GetOr([]))
        && qids == Qids(fetched.sectors.GetOr([]))
      ensures GetCachedWikidata(company.lei).Some?
    {
      var wikidataDict := GetCachedWikidata(company.lei);
      var sectors: seq<SectorFact>;
      if wikidataDict.None? {
        var fetched := lookup.Ask(company.lei);
        SaveWikidataInformation(company.lei, fetched.wikidataId, fetched.description, fetched.sectors, now);
        sectors := fetched.sectors.GetOr([]);
      } else {
        sectors := wikidataDict.value.sectors;
      }
      c := company.(sectorLabels := Labels(sectors));
      qids := Qids(sectors);
    }
  }
}
