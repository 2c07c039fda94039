/** The identity store (src/infrastructure/sqlite_repository.py): the tables `isin_lei_map`
    (ISIN -> LEI) and `lei_metadata` (LEI -> row), the joins that read them and the one
    UPDATE that writes enrichment back. */
module SqliteRepository {
  import opened Options
  import opened Models

  /** The company stored under `lei`, or None when `lei_metadata` has no row for it. */
  function CompanyAt(table: map<string, MetadataRow>, lei: string): (r: Option<Company>)
    ensures r.None? <==> lei !in table
    ensures r.Some? ==> r.value.lei == lei && r.value == FromRow(lei, table[lei])
  {
    if lei in table then Some(FromRow(lei, table[lei])) else None
  }

  /** The table after the enrichment update of the row of `lei`: description, sector labels,
      the checked flag (set) and the timestamp change, in at most one row, and nothing else. */
  function EnrichedRows(table: map<string, MetadataRow>, lei: string, description: string,
                        labels: seq<string>, now: Timestamp): (t: map<string, MetadataRow>)
    ensures t.Keys == table.Keys
    ensures forall l :: l in table && l != lei ==> t[l] == table[l]
    ensures lei in table ==>
      && t[lei].description == Some(description)
      && t[lei].sectorLabels == Some(labels)
      && t[lei].wikidataCheck == 1
      && t[lei].timestamp == Some(now)
      && t[lei] == table[lei].(description := t[lei].description, sectorLabels := t[lei].sectorLabels,
                               wikidataCheck := 1, timestamp := t[lei].timestamp)
  {
    if lei in table then
      table[lei := table[lei].(description := Some(description), sectorLabels := Some(labels),
                               wikidataCheck := 1, timestamp := Some(now))]
    else
      table
  }

  /** The table with the `timestamp` column blanked, to compare everything else. */
  function Untimed(table: map<string, MetadataRow>): map<string, MetadataRow> {
    map l | l in table :: table[l].(timestamp := None)
  }

  /** Reading a company back after `enrich_company` gives the in-memory enriched company,
      and every other LEI reads as before. */
  lemma EnrichedRowReadsBack(table: map<string, MetadataRow>, lei: string, description: string,
                             labels: seq<string>, now: Timestamp, other: string)
    ensures CompanyAt(EnrichedRows(table, lei, description, labels, now), lei)
         == if lei in table then Some(CompanyAt(table, lei).value.Enrich(labels, description)) else None
    ensures other != lei ==>
      CompanyAt(EnrichedRows(table, lei, description, labels, now), other) == CompanyAt(table, other)
  {
  }

  /** Repeating `enrich_company` with the same arguments leaves every column as the first call
      left it, apart from the timestamp. */
  lemma EnrichCompanyIdempotent(table: map<string, MetadataRow>, lei: string, description: string,
                                labels: seq<string>, first: Timestamp, second: Timestamp)
    ensures Untimed(EnrichedRows(EnrichedRows(table, lei, description, labels, first),
                                 lei, description, labels, second))
         == Untimed(EnrichedRows(table, lei, description, labels, first))
  {
    var once := EnrichedRows(table, lei, description, labels, first);
    var twice := EnrichedRows(once, lei, description, labels, second);
    assert Untimed(twice).Keys == Untimed(once).Keys;
    forall l | l in Untimed(once) ensures Untimed(twice)[l] == Untimed(once)[l] {
    }
  }

  class SqliteCompanyRepository {
    /** `isin_lei_map`: ISIN (primary key) -> LEI. */
    var isinLeiMap: map<string, string>
    /** `lei_metadata`: LEI (primary key) -> the other columns. */
    var leiMetadata: map<string, MetadataRow>
    /** The order in which a scan of `lei_metadata` without ORDER BY visits its rows. */
    var scanOrder: seq<string>

    ghost predicate Valid()
      reads this
    {
      && (forall l :: l in scanOrder <==> l in leiMetadata)
      && (forall i, j :: 0 <= i < j < |scanOrder| ==> scanOrder[i] != scanOrder[j])
    }

    /** A store already filled by the bulk loader. */
    constructor (isinLeiMap: map<string, string>, leiMetadata: map<string, MetadataRow>,
                 scanOrder: seq<string>)
      requires forall l :: l in scanOrder <==> l in leiMetadata
      requires forall i, j :: 0 <= i < j < |scanOrder| ==> scanOrder[i] != scanOrder[j]
      ensures Valid()
      ensures this.isinLeiMap == isinLeiMap && this.leiMetadata == leiMetadata
      ensures this.scanOrder == scanOrder
    {
      this.isinLeiMap := isinLeiMap;
      this.leiMetadata := leiMetadata;
      this.scanOrder := scanOrder;
    }

    /** `get_by_isin`: the inner join of the mapping row and the metadata row. */
    function GetByIsin(isin: string): (r: Option<Company>)
      reads this
      ensures r.Some? <==> isin in isinLeiMap && isinLeiMap[isin] in leiMetadata
      ensures r.Some? ==> r.value.lei == isinLeiMap[isin]
      ensures isin in isinLeiMap ==> r == GetByLei(isinLeiMap[isin])
    {
      if isin in isinLeiMap then CompanyAt(leiMetadata, isinLeiMap[isin]) else None
    }

    /** `get_by_lei`: None exactly when `lei_metadata` has no row for `lei`. */
    function GetByLei(lei: string): (r: Option<Company>)
      reads this
      ensures r.None? <==> lei !in leiMetadata
      ensures r.Some? ==> r.value.lei == lei
      ensures r.Some? ==> r.value.legalName == leiMetadata[lei].legalName
    {
      CompanyAt(leiMetadata, lei)
    }

    /** The ISINs that add a row to `get_by_isins`: every requested ISIN outside `seen` that
        has both rows, each once, in the order of its first occurrence in the request. */
    function MatchedIsins(isins: seq<string>, seen: set<string>): (ks: seq<string>)
      reads this
      ensures |ks| <= |isins|
      ensures forall i, j :: 0 <= i < j < |ks| ==> ks[i] != ks[j]
      ensures forall isin :: isin in ks <==> isin in isins && isin !in seen && GetByIsin(isin).Some?
    {
      if isins == [] then []
      else
        var rest := MatchedIsins(isins[1..], seen + {isins[0]});
        assert forall isin :: isin in isins <==> isin == isins[0] || isin in isins[1..];
        if isins[0] !in seen && GetByIsin(isins[0]).Some? then [isins[0]] + rest else rest
    }

    /** `get_by_isins`: an empty request gives [] without a query; otherwise one company per
        distinct requested ISIN that has both rows (two ISINs of one LEI give two rows), in
        request order. Unmatched ISINs are simply absent. */
    function GetByIsins(isins: seq<string>): (r: seq<Company>)
      reads this
      ensures isins == [] ==> r == []
      ensures |r| == |MatchedIsins(isins, {})| <= |isins|
      ensures forall i :: 0 <= i < |r| ==> GetByIsin(MatchedIsins(isins, {})[i]) == Some(r[i])
      ensures forall c :: c in r <==> exists isin :: isin in isins && GetByIsin(isin) == Some(c)
    {
      if isins == [] then []
      else
        JoinIsinsMembers(isins, {});
        JoinIsins(isins, {})
    }

    /** Every company `get_by_isins` returns is the one stored under its LEI. */
    lemma GetByIsinsStored(isins: seq<string>)
      ensures forall c :: c in GetByIsins(isins) ==> CompanyAt(leiMetadata, c.lei) == Some(c)
    {
      var r := GetByIsins(isins);
      forall c | c in r ensures CompanyAt(leiMetadata, c.lei) == Some(c) {
        var i :| 0 <= i < |r| && r[i] == c;
        assert GetByIsin(MatchedIsins(isins, {})[i]) == Some(c);
      }
    }

    /** The rows of the join restricted to the requested ISINs outside `seen`, one per matched
        ISIN, in request order. */
    function JoinIsins(isins: seq<string>, seen: set<string>): (r: seq<Company>)
      reads this
      ensures |r| == |MatchedIsins(isins, seen)|
      ensures forall i :: 0 <= i < |r| ==> GetByIsin(MatchedIsins(isins, seen)[i]) == Some(r[i])
    {
      if isins == [] then []
      else
        var rest := JoinIsins(isins[1..], seen + {isins[0]});
        var later := MatchedIsins(isins[1..], seen + {isins[0]});
        if isins[0] !in seen && GetByIsin(isins[0]).Some? then
          assert MatchedIsins(isins, seen) == [isins[0]] + later;
          [GetByIsin(isins[0]).value] + rest
        else
          assert MatchedIsins(isins, seen) == later;
          rest
    }

    /** A company is among the joined rows exactly when some requested ISIN outside `seen`
        resolves to it. */
    lemma JoinIsinsMembers(isins: seq<string>, seen: set<string>)
      ensures forall c :: c in JoinIsins(isins, seen) <==>
        exists isin :: isin in isins && isin !in seen && GetByIsin(isin) == Some(c)
    {
      var r, ks := JoinIsins(isins, seen), MatchedIsins(isins, seen);
      forall c ensures c in r <==> exists isin :: isin in isins && isin !in seen && GetByIsin(isin) == Some(c) {
        if c in r {
          var i :| 0 <= i < |r| && r[i] == c;
          assert ks[i] in ks;
        }
        if exists isin :: isin in isins && isin !in seen && GetByIsin(isin) == Some(c) {
          var isin :| isin in isins && isin !in seen && GetByIsin(isin) == Some(c);
          assert isin in ks;
          var i :| 0 <= i < |ks| && ks[i] == isin;
          assert r[i] == c;
        }
      }
    }

    /** `list_all(limit)`: the first `limit` rows of a table scan (100 by default); a negative
        LIMIT is no limit in SQLite. */
    function ListAll(limit: int := 100): (r: seq<Company>)
      reads this
      requires Valid()
      ensures limit >= 0 ==> |r| == if limit < |scanOrder| then limit else |scanOrder|
      ensures limit < 0 ==> |r| == |scanOrder|
      ensures forall i :: 0 <= i < |r| ==> r[i].lei == scanOrder[i] && GetByLei(r[i].lei) == Some(r[i])
    {
      var order, table := scanOrder, leiMetadata;
      var n := if 0 <= limit < |order| then limit else |order|;
      assert forall i :: 0 <= i < n ==> order[i] in table;
      seq(n, i requires 0 <= i < n => FromRow(order[i], table[order[i]]))
    }

    /** `enrich_company`: the one write; the mapping table and the scan order are untouched. */
    method EnrichCompany(lei: string, description: string, labels: seq<string>, now: Timestamp)
      requires Valid()
      modifies this
      ensures Valid()
      ensures leiMetadata == EnrichedRows(old(leiMetadata), lei, description, labels, now)
      ensures isinLeiMap == old(isinLeiMap) && scanOrder == old(scanOrder)
    {
      leiMetadata := EnrichedRows(leiMetadata, lei, description, labels, now);
    }
  }

  /** For distinct ISINs that all resolve, `get_by_isins` returns one company per ISIN, each
      the one `get_by_isin` returns. */
  lemma {:induction false} GetByIsinsAllFound(repo: SqliteCompanyRepository, isins: seq<string>, seen: set<string>)
    requires forall i, j :: 0 <= i < j < |isins| ==> isins[i] != isins[j]
    requires forall i :: 0 <= i < |isins| ==> isins[i] !in seen && repo.GetByIsin(isins[i]).Some?
    ensures |repo.JoinIsins(isins, seen)| == |isins|
    ensures forall i :: 0 <= i < |isins| ==> repo.JoinIsins(isins, seen)[i] == repo.GetByIsin(isins[i]).value
  {
    if isins != [] {
      GetByIsinsAllFound(repo, isins[1..], seen + {isins[0]});
    }
  }

  /** Position of the first occurrence of `x` in `s`. */
  function FirstIndex(s: seq<string>, x: string): (i: nat)
    requires x in s
    ensures i < |s| && s[i] == x
    ensures x !in s[..i]
  {
    if s[0] == x then 0
    else
      var k := FirstIndex(s[1..], x);
      assert s[..k + 1] == [s[0]] + s[1..][..k];
      1 + k
  }

  /** Past the first element, the first occurrence of `x` is one further on. */
  lemma FirstIndexTail(s: seq<string>, x: string)
    requires x in s && x != s[0]
    ensures x in s[1..] && FirstIndex(s, x) == 1 + FirstIndex(s[1..], x)
  {
    assert x in s[1..] by {
      var k :| 0 <= k < |s| && s[k] == x;
      assert s[1..][k - 1] == x;
    }
  }

  /** One step of `MatchedIsins`: the first requested ISIN heads the result when it matches,
      and every later matched ISIN differs from it. */
  lemma MatchedIsinsStep(repo: SqliteCompanyRepository, isins: seq<string>, seen: set<string>)
    requires isins != []
    ensures var rest := repo.MatchedIsins(isins[1..], seen + {isins[0]});
      && repo.MatchedIsins(isins, seen)
         == (if isins[0] !in seen && repo.GetByIsin(isins[0]).Some? then [isins[0]] + rest else rest)
      && forall k :: 0 <= k < |rest| ==> rest[k] != isins[0]
  {
    var rest := repo.MatchedIsins(isins[1..], seen + {isins[0]});
    forall k | 0 <= k < |rest| ensures rest[k] != isins[0] {
      assert rest[k] in rest;
    }
  }

  /** The matched ISINs, hence the rows of `get_by_isins`, follow the order in which the ISINs
      are first requested. */
  lemma {:induction false} MatchedIsinsInRequestOrder(repo: SqliteCompanyRepository, isins: seq<string>,
                                                      seen: set<string>, i: nat, j: nat)
    requires i < j < |repo.MatchedIsins(isins, seen)|
    ensures var ks := repo.MatchedIsins(isins, seen);
      FirstIndex(isins, ks[i]) < FirstIndex(isins, ks[j])
  {
    var ks := repo.MatchedIsins(isins, seen);
    var rest := repo.MatchedIsins(isins[1..], seen + {isins[0]});
    MatchedIsinsStep(repo, isins, seen);
    var d := if |ks| == |rest| then 0 else 1;
    assert ks[j] == rest[j - d];
    FirstIndexTail(isins, ks[j]);
    if i >= d {
      assert ks[i] == rest[i - d];
      MatchedIsinsInRequestOrder(repo, isins[1..], seen + {isins[0]}, i - d, j - d);
      FirstIndexTail(isins, ks[i]);
    } else {
      assert ks[i] == isins[0];
    }
  }
}
