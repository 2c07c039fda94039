/** The company entity (src/core/models.py) and the lei_metadata row it is loaded from. */
module Models {
  import opened Options

  /** ISO-8601 text written by `datetime.now().isoformat()`; opaque to this model. */
  type Timestamp = string

  /** One row of the `lei_metadata` table, without its key column `lei`.
      `sectorLabels` is the JSON-encoded label list, represented by the list itself. */
  datatype MetadataRow = MetadataRow(
    registrationStatus: string,
    entityStatus: string,
    legalName: string,
    city: string,
    country: string,
    category: string,
    description: Option<string>,
    sectorLabels: Option<seq<string>>,
    wikidataCheck: int,
    timestamp: Option<Timestamp>)

  /** `s` occurs in `text` as a contiguous piece (Python's `s in text` on strings). */
  predicate Contains(text: string, s: string) {
    exists i :: 0 <= i <= |text| && s <= text[i..]
  }

  /** The identity record of one legal entity, keyed by its LEI, with the two
      enrichment attributes that are filled in lazily. */
  datatype Company = Company(
    lei: string,
    registrationStatus: string,
    entityStatus: string,
    legalName: string,
    city: string,
    country: string,
    category: string,
    description: string,
    sectorLabels: seq<string>)
  {
    /** The gate for querying the knowledge base: some enrichment is present, i.e. the
        company differs from its unenriched form. */
    predicate HasSectorData(): (b: bool)
      ensures b <==> this != this.(description := "", sectorLabels := [])
    {
      description != "" || sectorLabels != []
    }

    /** Stores knowledge-base facts on the entity; the identity attributes are kept. */
    function Enrich(labels: seq<string>, newDescription: string): (c: Company)
      ensures c.description == newDescription
      ensures forall l :: l in labels ==> l in c.sectorLabels
      ensures c.HasSectorData() <==> newDescription != "" || labels != []
      ensures SameIdentity(this, c)
    {
      this.(description := newDescription, sectorLabels := labels)
    }

    /** The document stored in the vector index for this entity: the fixed prefix and the
        legal name first, the category and a full stop last, and 61 characters of template
        around the four fields. */
    function EmbeddingText(): (t: string)
      ensures "Risk characteristics for company " + legalName <= t
      ensures |t| == |legalName| + |city| + |country| + |category| + 61
      ensures t[|t| - |category| - 1..] == category + "."
    {
      "Risk characteristics for company " + legalName + ". Located in " + city + ", "
        + country + ". Category: " + category + "."
    }

    /** The human-readable form printed next to each match: the name and the LEI first, the
        category last. */
    function ToString(): (t: string)
      ensures "Name: " + legalName + ", LEI: " + lei <= t
      ensures |t| == |legalName| + |lei| + |country| + |category| + 36
      ensures t[|t| - |category|..] == category
    {
      "Name: " + legalName + ", LEI: " + lei + ", Country: " + country + ", Category: " + category
    }
  }

  /** The seven attributes loaded by the bulk reference load are equal. */
  predicate SameIdentity(a: Company, b: Company) {
    && a.lei == b.lei
    && a.registrationStatus == b.registrationStatus
    && a.entityStatus == b.entityStatus
    && a.legalName == b.legalName
    && a.city == b.city
    && a.country == b.country
    && a.category == b.category
  }

  /** A company built from its seven identity attributes, as the dataclass constructor does. */
  function NewCompany(lei: string, registrationStatus: string, entityStatus: string,
                      legalName: string, city: string, country: string, category: string): (c: Company)
    ensures !c.HasSectorData()
    ensures c.lei == lei && c.legalName == legalName && c.city == city
    ensures c.country == country && c.category == category
    ensures c.registrationStatus == registrationStatus && c.entityStatus == entityStatus
  {
    Company(lei, registrationStatus, entityStatus, legalName, city, country, category, "", [])
  }

  /** `Company.from_row`: the selected columns of a lei_metadata row; a NULL description
      or label list reads as empty. */
  function FromRow(lei: string, row: MetadataRow): (c: Company)
    ensures c.lei == lei && c.legalName == row.legalName && c.category == row.category
    ensures c.city == row.city && c.country == row.country
    ensures c.registrationStatus == row.registrationStatus && c.entityStatus == row.entityStatus
    ensures c.description == row.description.GetOr("")
    ensures c.sectorLabels == row.sectorLabels.GetOr([])
  {
    Company(lei, row.registrationStatus, row.entityStatus, row.legalName, row.city, row.country,
            row.category, row.description.GetOr(""), row.sectorLabels.GetOr([]))
  }

  /** A freshly constructed company has no sector data; after `enrich` with a label and a
      description it has, the label is among its labels and the description is the one given. */
  lemma EnrichLifecycle(c: Company, labels: seq<string>, d: string)
    requires c == NewCompany(c.lei, c.registrationStatus, c.entityStatus, c.legalName,
                             c.city, c.country, c.category)
    requires labels != [] && d != ""
    ensures !c.HasSectorData()
    ensures c.Enrich(labels, d).HasSectorData()
    ensures labels[0] in c.Enrich(labels, d).sectorLabels
    ensures c.Enrich(labels, d).description == d
  {
  }

  /** The embedding text is a function of the name, city, country and category alone:
      the LEI, the two statuses and the enrichment attributes never change it. */
  lemma EmbeddingTextDependsOnDescriptiveFields(a: Company, b: Company)
    requires a.legalName == b.legalName && a.city == b.city
    requires a.country == b.country && a.category == b.category
    ensures a.EmbeddingText() == b.EmbeddingText()
  {
  }

  /** The fallback text names the risk characteristics and the category. */
  lemma EmbeddingTextMentionsCategory(c: Company)
    ensures Contains(c.EmbeddingText(), "Risk characteristics")
    ensures Contains(c.EmbeddingText(), c.category)
  {
    var t := c.EmbeddingText();
    assert "Risk characteristics" <= t[0..];
    var head := "Risk characteristics for company " + c.legalName + ". Located in " + c.city
                + ", " + c.country + ". Category: ";
    assert t == head + c.category + ".";
    assert t[|head|..] == c.category + ".";
    assert c.category <= t[|head|..];
  }

  /** The printed form carries the legal name and the LEI. */
  lemma ToStringShowsNameAndLei(c: Company)
    ensures Contains(c.ToString(), c.legalName)
    ensures Contains(c.ToString(), c.lei)
  {
    var t := c.ToString();
    var head := "Name: " + c.legalName + ", LEI: ";
    assert t == head + c.lei + ", Country: " + c.country + ", Category: " + c.category;
    assert c.legalName <= t[|"Name: "|..];
    assert c.lei <= t[|head|..];
  }
}
