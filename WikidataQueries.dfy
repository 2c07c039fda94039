/** The pure part of the knowledge-base client in src/core/enrichment_service.py: the
    requests it sends, the response shapes it reads, and how `_query_wikidata`,
    `_query_wikidata_batch` and `_chunked_query_wikidata` turn responses into results. */
module WikidataQueries {
  import opened Options

  /** A request to the SPARQL endpoint, identified by the LEIs it asks about; the query
      text built from them is not modelled. */
  datatype SparqlRequest = SingleLei(lei: string) | LeiBatch(leis: seq<string>)

  /** One result row; each field is present or absent, as the JSON keys are. */
  datatype Binding = Binding(
    item: Option<string>,
    itemDescription: Option<string>,
    industry: Option<string>,
    industryLabel: Option<string>,
    lei: Option<string>)

  /** What the endpoint gives back: the bindings list (a body without `results` or
      `bindings` reads as []), or a request exception (HTTP error after the transport's
      retries, timeout, undecodable body). */
  datatype Response = RequestFailed | Answered(bindings: seq<Binding>)

  /** One sector of a result: a dictionary holding only its label. */
  datatype Sector = Sector(name: string)

  /** A lookup result: the item id, its description and its sectors. */
  datatype WikidataInfo = WikidataInfo(wikidataId: Option<string>, description: Option<string>, sectors: seq<Sector>)

  /** The degraded result: no id, no description, no sectors. */
  const Empty := WikidataInfo(None, None, [])

  /** Python truthiness of an optional string: present and non-empty. */
  predicate Truthy(s: Option<string>) {
    s.Some? && s.value != ""
  }

  /** The text after the last slash of `s`, or all of `s` when it has none. */
  function LastSegment(s: string): (r: string)
    ensures '/' !in r
    ensures |r| <= |s| && r == s[|s| - |r|..]
    ensures |r| < |s| ==> s[|s| - |r| - 1] == '/'
  {
    if s == [] then []
    else if s[|s| - 1] == '/' then []
    else LastSegment(s[..|s| - 1]) + [s[|s| - 1]]
  }

  /** The entity id is recovered from an entity URI such as
      `http://www.wikidata.org/entity/Q312`. */
  lemma LastSegmentOfUri(prefix: string, id: string)
    requires '/' !in id
    ensures LastSegment(prefix + "/" + id) == id
  {
    var s := prefix + "/" + id;
    assert s[|s| - |id| - 1] == '/';
  }

  /** The id taken from a binding's `item`, when it has one: the part of the URI after its
      last slash. */
  function IdOf(b: Binding): (r: Option<string>)
    ensures r.Some? <==> b.item.Some?
    ensures r.Some? ==> '/' !in r.value && |r.value| <= |b.item.value|
    ensures r.Some? ==> r.value == b.item.value[|b.item.value| - |r.value|..]
  {
    if b.item.Some? then Some(LastSegment(b.item.value)) else None
  }

  /** One sector per binding that carries an industry label, in binding order. */
  function SectorsOf(bs: seq<Binding>): (r: seq<Sector>)
    ensures |r| <= |bs|
    ensures forall s :: s in r <==> exists b :: b in bs && b.industryLabel == Some(s.name)
  {
    if bs == [] then []
    else
      var last := bs[|bs| - 1];
      assert forall b :: b in bs <==> b in bs[..|bs| - 1] || b == last;
      SectorsOf(bs[..|bs| - 1]) + if last.industryLabel.Some? then [Sector(last.industryLabel.value)] else []
  }

  lemma {:induction false} SectorsOfAppend(bs: seq<Binding>, more: seq<Binding>)
    ensures SectorsOf(bs + more) == SectorsOf(bs) + SectorsOf(more)
    decreases |more|
  {
    if more != [] {
      var n := |more| - 1;
      assert (bs + more)[..|bs + more| - 1] == bs + more[..n];
      SectorsOfAppend(bs, more[..n]);
    } else {
      assert bs + more == bs;
    }
  }

  /** `_query_wikidata`'s mapping: a failed request, an empty result or a first binding
      without `item` (a KeyError) give the empty result; otherwise the first binding supplies
      the id and description and every labelled binding a sector. */
  function MapSingle(resp: Response): (r: WikidataInfo)
    ensures r.wikidataId.Some? <==> resp.Answered? && resp.bindings != [] && resp.bindings[0].item.Some?
    ensures r.wikidataId.None? ==> r == Empty
    ensures r.wikidataId.Some? ==>
      && '/' !in r.wikidataId.value
      && r.description == resp.bindings[0].itemDescription
      && (forall s :: s in r.sectors <==> exists b :: b in resp.bindings && b.industryLabel == Some(s.name))
  {
    match resp
    case RequestFailed => Empty
    case Answered(bs) =>
      if bs == [] || bs[0].item.None? then Empty
      else WikidataInfo(IdOf(bs[0]), bs[0].itemDescription, SectorsOf(bs))
  }

  /** The single-item id is the entity id of the first binding's URI. */
  lemma MapSingleId(bs: seq<Binding>, prefix: string, id: string)
    requires bs != [] && bs[0].item == Some(prefix + "/" + id) && '/' !in id
    ensures MapSingle(Answered(bs)).wikidataId == Some(id)
  {
    LastSegmentOfUri(prefix, id);
  }

  // ---------------- Grouping of batch bindings by LEI ----------------

  /** The binding is kept under `lei` (bindings whose `lei` is missing or empty are skipped). */
  predicate Carries(b: Binding, lei: string) {
    b.lei == Some(lei) && lei != ""
  }

  /** The bindings kept under `lei`, in response order. */
  function WithLei(bs: seq<Binding>, lei: string): (r: seq<Binding>)
    ensures |r| <= |bs|
    ensures forall b :: b in r <==> b in bs && Carries(b, lei)
  {
    if bs == [] then []
    else
      var last := bs[|bs| - 1];
      assert forall b :: b in bs <==> b in bs[..|bs| - 1] || b == last;
      WithLei(bs[..|bs| - 1], lei) + if Carries(last, lei) then [last] else []
  }

  /** The LEIs the response carries. */
  function LeisIn(bs: seq<Binding>): set<string> {
    set b | b in bs && b.lei.Some? && b.lei.value != "" :: b.lei.value
  }

  /** The result for one LEI from its bindings: the first supplies id and description,
      each labelled one a sector. */
  function GroupEntry(group: seq<Binding>): WikidataInfo {
    if group == [] then Empty
    else WikidataInfo(IdOf(group[0]), group[0].itemDescription, SectorsOf(group))
  }

  /** The reference meaning of the grouping loop of `_query_wikidata_batch`: one entry per
      LEI the response carries, built from the bindings carrying it. */
  function ByLei(bs: seq<Binding>): (m: map<string, WikidataInfo>)
    ensures m.Keys == LeisIn(bs)
  {
    map l | l in LeisIn(bs) :: GroupEntry(WithLei(bs, l))
  }

  /** The entry that one more binding creates when its LEI is new. */
  function NewEntry(b: Binding): WikidataInfo {
    WikidataInfo(IdOf(b), b.itemDescription, [])
  }

  /** One iteration of the grouping loop: a binding without a (non-empty) LEI is skipped; one
      with a new LEI opens an entry from itself; its label, if any, is appended to its LEI's
      sectors. */
  function GroupStep(m: map<string, WikidataInfo>, b: Binding): (r: map<string, WikidataInfo>)
    ensures !Truthy(b.lei) ==> r == m
    ensures Truthy(b.lei) ==>
      var l := b.lei.value;
      && r.Keys == m.Keys + {l}
      && (forall k :: k in m && k != l ==> r[k] == m[k])
      && (l in m ==> r[l].wikidataId == m[l].wikidataId && r[l].description == m[l].description)
      && (l !in m ==> r[l].wikidataId == IdOf(b) && r[l].description == b.itemDescription)
      && r[l].sectors == (if l in m then m[l].sectors else []) + SectorsOf([b])
  {
    if b.lei.Some? && b.lei.value != "" then
      var l := b.lei.value;
      var e := if l in m then m[l] else NewEntry(b);
      m[l := if b.industryLabel.Some? then e.(sectors := e.sectors + [Sector(b.industryLabel.value)]) else e]
    else m
  }

  /** The grouping loop run over `bs`: it has an entry for every LEI the response carries,
      and for no other. */
  function Grouped(bs: seq<Binding>): (m: map<string, WikidataInfo>)
    ensures m.Keys == LeisIn(bs)
  {
    if bs == [] then map[]
    else
      var n := |bs| - 1;
      assert bs == bs[..n] + [bs[n]];
      GroupStep(Grouped(bs[..n]), bs[n])
  }

  lemma WithLeiAppend(bs: seq<Binding>, b: Binding, lei: string)
    ensures WithLei(bs + [b], lei) == WithLei(bs, lei) + if Carries(b, lei) then [b] else []
  {
    assert (bs + [b])[..|bs|] == bs;
  }

  lemma {:induction false} WithLeiNone(bs: seq<Binding>, lei: string)
    requires forall j :: 0 <= j < |bs| ==> !Carries(bs[j], lei)
    ensures WithLei(bs, lei) == []
  {
    if bs != [] {
      WithLeiNone(bs[..|bs| - 1], lei);
    }
  }

  /** A LEI is carried by the response exactly when its group is non-empty. */
  lemma LeisInHasGroup(bs: seq<Binding>, lei: string)
    ensures lei in LeisIn(bs) <==> WithLei(bs, lei) != []
  {
    if lei in LeisIn(bs) {
      var w :| w in bs && w.lei.Some? && w.lei.value != "" && w.lei.value == lei;
      assert w in WithLei(bs, lei);
    } else {
      forall j | 0 <= j < |bs| ensures !Carries(bs[j], lei) {
        assert bs[j] in bs;
      }
      WithLeiNone(bs, lei);
    }
  }

  lemma GroupEntryAppend(g: seq<Binding>, b: Binding)
    ensures var e := if g != [] then GroupEntry(g) else NewEntry(b);
      GroupEntry(g + [b]) == e.(sectors := e.sectors + SectorsOf([b]))
  {
    SectorsOfAppend(g, [b]);
    if g != [] {
      assert (g + [b])[0] == g[0];
    } else {
      assert g + [b] == [b];
    }
  }

  /** After the grouping loop has run over `bs`, a LEI has an entry exactly when some binding
      carries it, and that entry is the one built from the bindings carrying it. */
  lemma {:induction false} GroupedAt(bs: seq<Binding>, lei: string)
    ensures lei in Grouped(bs) <==> WithLei(bs, lei) != []
    ensures lei in Grouped(bs) ==> Grouped(bs)[lei] == GroupEntry(WithLei(bs, lei))
  {
    if bs != [] {
      var n := |bs| - 1;
      var p, b := bs[..n], bs[n];
      assert bs == p + [b];
      GroupedAt(p, lei);
      WithLeiAppend(p, b, lei);
      if Carries(b, lei) {
        GroupEntryAppend(WithLei(p, lei), b);
        assert [b][..0] == [];
        if b.industryLabel.Some? {
          assert SectorsOf([b]) == [Sector(b.industryLabel.value)];
        } else {
          assert SectorsOf([b]) == [];
        }
      } else {
        assert WithLei(bs, lei) == WithLei(p, lei);
      }
    }
  }

  /** The grouping loop computes its reference meaning. */
  lemma GroupedIsByLei(bs: seq<Binding>)
    ensures Grouped(bs) == ByLei(bs)
  {
    forall l ensures l in Grouped(bs) <==> l in ByLei(bs) {
      GroupedAt(bs, l);
      LeisInHasGroup(bs, l);
    }
    assert Grouped(bs).Keys == ByLei(bs).Keys;
    forall l | l in ByLei(bs) ensures Grouped(bs)[l] == ByLei(bs)[l] {
      GroupedAt(bs, l);
    }
  }

  /** The first binding carrying `lei` heads its group. */
  lemma {:induction false} WithLeiFirst(bs: seq<Binding>, lei: string, i: nat)
    requires i < |bs| && Carries(bs[i], lei)
    requires forall j :: 0 <= j < i ==> !Carries(bs[j], lei)
    ensures WithLei(bs, lei) != [] && WithLei(bs, lei)[0] == bs[i]
  {
    var n := |bs| - 1;
    if i < n {
      WithLeiFirst(bs[..n], lei, i);
    } else {
      WithLeiNone(bs[..n], lei);
    }
  }

  // ---------------- `_query_wikidata_batch` ----------------

  /** Every requested LEI missing from `m` added with the empty result. */
  function Completed(m: map<string, WikidataInfo>, leis: seq<string>): (r: map<string, WikidataInfo>)
    ensures r.Keys == m.Keys + (set l | l in leis)
    ensures forall l :: l in m ==> r[l] == m[l]
    ensures forall l :: l in leis && l !in m ==> r[l] == Empty
  {
    if leis == [] then m
    else
      var n := |leis| - 1;
      var r := Completed(m, leis[..n]);
      assert forall l :: l in leis <==> l in leis[..n] || l == leis[n];
      if leis[n] in r then r else r[leis[n] := Empty]
  }

  /** What `_query_wikidata_batch(leis)` returns when the endpoint answers `resp`:
      {} for no LEIs (no request is made), every requested LEI with the empty result when
      the request failed, and otherwise the grouped bindings completed with empty results. */
  function BatchResult(leis: seq<string>, resp: Response): (r: map<string, WikidataInfo>)
    ensures leis == [] ==> r == map[]
    ensures forall l :: l in leis ==> l in r
    ensures resp.RequestFailed? ==> forall l :: l in r <==> l in leis
    ensures resp.RequestFailed? ==> forall l :: l in r ==> r[l] == Empty
  {
    if leis == [] then map[]
    else match resp
      case RequestFailed => map l | l in leis :: Empty
      case Answered(bs) => Completed(ByLei(bs), leis)
  }

  /** In a batch result, a LEI's id and description come from the first binding carrying it,
      and its sectors list the label of every binding carrying it, in response order and
      without de-duplication. */
  lemma BatchEntryFromBindings(leis: seq<string>, bs: seq<Binding>, lei: string, i: nat)
    requires leis != []
    requires i < |bs| && Carries(bs[i], lei)
    requires forall j :: 0 <= j < i ==> !Carries(bs[j], lei)
    ensures lei in BatchResult(leis, Answered(bs))
    ensures BatchResult(leis, Answered(bs))[lei].wikidataId == IdOf(bs[i])
    ensures BatchResult(leis, Answered(bs))[lei].description == bs[i].itemDescription
    ensures BatchResult(leis, Answered(bs))[lei].sectors == SectorsOf(WithLei(bs, lei))
  {
    assert bs[i] in bs;
    assert lei in LeisIn(bs);
    WithLeiFirst(bs, lei, i);
  }

  /** A requested LEI that no binding carries, or any requested LEI of a failed request,
      maps to the empty result. */
  lemma BatchMissingIsEmpty(leis: seq<string>, resp: Response, lei: string)
    requires lei in leis
    requires resp.Answered? ==> forall b :: b in resp.bindings ==> !Carries(b, lei)
    ensures BatchResult(leis, resp)[lei] == Empty
  {
    if resp.Answered? {
      assert lei !in LeisIn(resp.bindings);
    }
  }

  // ---------------- `_chunked_query_wikidata` ----------------

  /** Consecutive slices of `size` LEIs each, the last possibly shorter, so there are
      `|leis| / size` of them rounded up;
      a negative size gives an empty range (a zero size raises, so callers never pass one). */
  function Chunks(leis: seq<string>, size: int): (r: seq<seq<string>>)
    requires size != 0
    ensures size < 0 ==> r == []
    ensures size > 0 ==> |leis| <= |r| * size < |leis| + size
    ensures size > 0 ==> forall k :: 0 <= k < |r| ==> 0 < |r[k]| <= size
    decreases |leis|
  {
    if size < 0 || leis == [] then []
    else if |leis| <= size then [leis]
    else
      var rest := Chunks(leis[size..], size);
      assert (1 + |rest|) * size == size + |rest| * size;
      [leis[..size]] + rest
  }

  /** Concatenation regroups freely; stated once so that loops appending to a log need not
      prove it element by element. */
  lemma AppendAssociative<T>(a: seq<T>, b: seq<T>, c: seq<T>)
    ensures a + (b + c) == (a + b) + c
  {
  }

  function Concat(cs: seq<seq<string>>): seq<string> {
    if cs == [] then [] else cs[0] + Concat(cs[1..])
  }

  /** All slices but the last are exactly `size` long, and the slices concatenate back to
      the input in order. */
  lemma {:induction false} ChunksPartition(leis: seq<string>, size: int)
    requires size > 0
    ensures Concat(Chunks(leis, size)) == leis
    ensures forall k :: 0 <= k < |Chunks(leis, size)| - 1 ==> |Chunks(leis, size)[k]| == size
    decreases |leis|
  {
    if leis != [] && |leis| > size {
      ChunksPartition(leis[size..], size);
      var cs := Chunks(leis, size);
      assert cs[1..] == Chunks(leis[size..], size);
      assert leis[..size] + leis[size..] == leis;
    }
  }

  /** The slices the loop of `_chunked_query_wikidata` takes from position `i` on: one slice
      of at most `size` LEIs at `i`, then the slices from `i + size`. */
  function ChunksFrom(leis: seq<string>, size: int, i: nat): (r: seq<seq<string>>)
    requires size > 0
    ensures i >= |leis| <==> r == []
    decreases |leis| - i
  {
    if i >= |leis| then []
    else [leis[i..if i + size < |leis| then i + size else |leis|]] + ChunksFrom(leis, size, i + size)
  }

  /** The loop's slices from any position are the slices of the rest of the list. */
  lemma {:induction false} ChunksFromIsChunks(leis: seq<string>, size: int, i: nat)
    requires size > 0 && i <= |leis|
    ensures ChunksFrom(leis, size, i) == Chunks(leis[i..], size)
    decreases |leis| - i
  {
    if i < |leis| {
      if i + size < |leis| {
        ChunksFromIsChunks(leis, size, i + size);
        assert leis[i..][..size] == leis[i..i + size];
        assert leis[i..][size..] == leis[i + size..];
      } else {
        assert leis[i..] == leis[i..|leis|];
      }
    }
  }

  /** The requests `_chunked_query_wikidata` sends, one per slice. */
  function Requests(chunks: seq<seq<string>>): (r: seq<SparqlRequest>)
    ensures |r| == |chunks|
    ensures forall k :: 0 <= k < |r| ==> r[k] == LeiBatch(chunks[k])
  {
    seq(|chunks|, k requires 0 <= k < |chunks| => LeiBatch(chunks[k]))
  }

  /** The per-slice results merged in slice order: a later slice overwrites an earlier one.
      Every LEI of any slice is a key. */
  function Merged(answer: SparqlRequest -> Response, chunks: seq<seq<string>>): (r: map<string, WikidataInfo>)
    ensures chunks == [] ==> r == map[]
    ensures forall k, lei :: 0 <= k < |chunks| && lei in chunks[k] ==> lei in r
  {
    if chunks == [] then map[]
    else
      var last := chunks[|chunks| - 1];
      Merged(answer, chunks[..|chunks| - 1]) + BatchResult(last, answer(LeiBatch(last)))
  }

  /** One more slice: its requests and its results come after those of the earlier slices. */
  lemma MergedAppend(answer: SparqlRequest -> Response, chunks: seq<seq<string>>, chunk: seq<string>)
    ensures Requests(chunks + [chunk]) == Requests(chunks) + [LeiBatch(chunk)]
    ensures Merged(answer, chunks + [chunk]) == Merged(answer, chunks) + BatchResult(chunk, answer(LeiBatch(chunk)))
  {
    assert (chunks + [chunk])[..|chunks|] == chunks;
  }

  lemma {:induction false} InConcat(cs: seq<seq<string>>, lei: string) returns (k: nat)
    requires lei in Concat(cs)
    ensures k < |cs| && lei in cs[k]
  {
    if lei in cs[0] {
      k := 0;
    } else {
      var k' := InConcat(cs[1..], lei);
      k := k' + 1;
    }
  }

  /** `_chunked_query_wikidata` returns a result for every LEI it was given. */
  lemma ChunkedResultsTotal(answer: SparqlRequest -> Response, leis: seq<string>, size: int, lei: string)
    requires size > 0 && lei in leis
    ensures lei in Merged(answer, Chunks(leis, size))
  {
    ChunksPartition(leis, size);
    var k := InConcat(Chunks(leis, size), lei);
  }

  /** Where a LEI appears in the last slice, the merged result is that slice's result. */
  lemma MergedLastWins(answer: SparqlRequest -> Response, chunks: seq<seq<string>>, lei: string)
    requires chunks != [] && lei in chunks[|chunks| - 1]
    ensures var last := chunks[|chunks| - 1];
      Merged(answer, chunks)[lei] == BatchResult(last, answer(LeiBatch(last)))[lei]
  {
  }
}
