/**
 * Code search and lookup over the fixed table of NAMASTE codes and their
 * ICD-11 counterparts, as served by `GET /api/codes/search` and
 * `GET /api/codes/:code` (server/routes/codes.ts).
 *
 * Search is a staged pipeline: a case-insensitive text filter (only when `q`
 * is non-empty), then a category filter (only when one is given), then
 * `slice(0, limit)`. Lookup is an exact, case-sensitive `find`.
 */
module CodeSearch {

  import opened Text
  import opened Seqs

  datatype Category = Ayurveda | Siddha | Unani

  datatype CodeEntry = CodeEntry(
    namasteCode: string,
    namasteDescription: string,
    icd11Code: string,
    icd11Description: string,
    confidence: real,
    category: Category)

  /** The mock table, in its declared order. */
  const MockCodes: seq<CodeEntry> := [
    CodeEntry("AYR-001", "Vata Vyadhi (Wind Disorder)", "BA25.1",
              "Disorders of the nervous system and sense organs", 0.94, Ayurveda),
    CodeEntry("SID-045", "Pitta Roga (Pitta Disease)", "DA90", "Diabetes mellitus", 0.87, Siddha),
    CodeEntry("UNA-012", "Humoral Imbalance", "QD82", "Symptoms and signs", 0.76, Unani),
    CodeEntry("AYR-023", "Kapha Vyadhi (Phlegm Disorder)", "DB20", "Asthma", 0.92, Ayurveda),
    CodeEntry("SID-089", "Iyya Pitta (Bodily Humours)", "EA03", "Hypertension", 0.65, Siddha)
  ]

  const DefaultLimit: int := 10

  // ------------------------------------------------------ query parsing

  /** A query-string parameter as the web framework hands it over. */
  datatype Param = Missing | Given(text: string) | Repeated

  datatype SearchQuery = SearchQuery(q: Option<string>, category: Option<Category>, limit: int)

  function CategoryNamed(s: string): Option<Category>
  {
    if s == "Ayurveda" then Some(Ayurveda)
    else if s == "Siddha" then Some(Siddha)
    else if s == "Unani" then Some(Unani)
    else None
  }

  /**
   * The query schema: `q` an optional string, `category` an optional member of
   * the three categories, `limit` coerced with `Number` and defaulting to 10.
   * `None` is a schema failure.
   */
  function ParseQuery(q: Param, category: Param, limit: Param): (r: Option<SearchQuery>)
    ensures r.Some? <==> && !q.Repeated?
                         && (category.Missing? || (category.Given? && CategoryNamed(category.text).Some?))
                         && (limit.Missing? || (limit.Given? && ToNumber(limit.text).Finite?))
    ensures r.Some? ==> (q.Missing? <==> r.value.q.None?)
    ensures r.Some? && q.Given? ==> r.value.q == Some(q.text)
    ensures r.Some? && category.Missing? ==> r.value.category.None?
    ensures r.Some? && category.Given? ==> r.value.category == CategoryNamed(category.text)
    ensures r.Some? && limit.Missing? ==> r.value.limit == DefaultLimit
    ensures r.Some? && limit.Given? ==> r.value.limit == ToNumber(limit.text).value
  {
    var qOk := !q.Repeated?;
    var catOk := category.Missing? || (category.Given? && CategoryNamed(category.text).Some?);
    var lim := match limit
      case Missing => Finite(DefaultLimit)
      case Given(text) => ToNumber(text)
      case Repeated => NaN;
    if qOk && catOk && lim.Finite? then
      Some(SearchQuery(
        if q.Given? then Some(q.text) else None,
        if category.Given? then CategoryNamed(category.text) else None,
        lim.value))
    else None
  }

  // ---------------------------------------------------------- the pipeline

  /** The text test: `term` (already lower-cased) occurs in one of the four fields. */
  predicate MatchesTerm(e: CodeEntry, term: string)
  {
    || Contains(Lower(e.namasteCode), term)
    || Contains(Lower(e.namasteDescription), term)
    || Contains(Lower(e.icd11Code), term)
    || Contains(Lower(e.icd11Description), term)
  }

  /** `if (query.q)`: the text filter runs only for a non-empty `q`. */
  predicate HasText(query: SearchQuery)
  {
    query.q.Some? && query.q.value != ""
  }

  /** The end index that `slice(0, end)` cuts at on a sequence of length `n`. */
  function SliceEnd(n: nat, end: int): (k: nat)
    ensures k <= n
    ensures end >= 0 ==> k == if end < n then end else n
    ensures end < 0 ==> k == if n + end > 0 then n + end else 0
  {
    if end < 0 then (if n + end > 0 then n + end else 0)
    else if end < n then end else n
  }

  function TextFiltered(codes: seq<CodeEntry>, query: SearchQuery): seq<CodeEntry>
  {
    if HasText(query) then
      Filter((e: CodeEntry) => MatchesTerm(e, Lower(query.q.value)), codes)
    else codes
  }

  function CategoryFiltered(codes: seq<CodeEntry>, query: SearchQuery): seq<CodeEntry>
  {
    if query.category.Some? then
      Filter((e: CodeEntry) => e.category == query.category.value, codes)
    else codes
  }

  /**
   * The `results` of the handler: filter, filter, slice. They are the
   * entries the whole query selects, cut where `slice(0, limit)` cuts.
   */
  function SearchIn(codes: seq<CodeEntry>, query: SearchQuery): (r: seq<CodeEntry>)
    ensures var sel := Selection(codes, query); r == sel[..SliceEnd(|sel|, query.limit)]
  {
    StagedFiltersAreSelection(codes, query);
    var selected := CategoryFiltered(TextFiltered(codes, query), query);
    selected[..SliceEnd(|selected|, query.limit)]
  }

  datatype SearchResponse = SearchOk(results: seq<CodeEntry>, total: nat) | InvalidQuery

  function SearchStatus(r: SearchResponse): nat
  {
    if r.SearchOk? then 200 else 400
  }

  /** `handleSearchCodes`: 400 on a schema failure, else the results and their count. */
  function HandleSearchCodes(q: Param, category: Param, limit: Param): (r: SearchResponse)
    ensures r.InvalidQuery? <==> ParseQuery(q, category, limit).None?
    ensures r.SearchOk? ==> r.total == |r.results|
    ensures r.SearchOk? && ParseQuery(q, category, limit).value.limit >= 0 ==>
              r.total <= ParseQuery(q, category, limit).value.limit
  {
    match ParseQuery(q, category, limit)
    case None => InvalidQuery
    case Some(query) =>
      var results := SearchIn(MockCodes, query);
      SearchOk(results, |results|)
  }

  // ------------------------------------------------- reference definition

  /** One entry satisfies the whole query (text and category at once). */
  predicate Selected(e: CodeEntry, query: SearchQuery)
  {
    && (HasText(query) ==> MatchesTerm(e, Lower(query.q.value)))
    && (query.category.Some? ==> e.category == query.category.value)
  }

  /** Every entry of the table that satisfies the query, in table order. */
  function Selection(codes: seq<CodeEntry>, query: SearchQuery): seq<CodeEntry>
  {
    Filter((e: CodeEntry) => Selected(e, query), codes)
  }

  /** The two staged filters select exactly the entries that satisfy the query, in order. */
  lemma StagedFiltersAreSelection(codes: seq<CodeEntry>, query: SearchQuery)
    ensures CategoryFiltered(TextFiltered(codes, query), query) == Selection(codes, query)
  {
    var sel := (e: CodeEntry) => Selected(e, query);
    if HasText(query) {
      var text := (e: CodeEntry) => MatchesTerm(e, Lower(query.q.value));
      if query.category.Some? {
        var cat := (e: CodeEntry) => e.category == query.category.value;
        FilterFilter(text, cat, sel, codes);
      } else {
        FilterExtensional(text, sel, codes);
      }
    } else {
      if query.category.Some? {
        var cat := (e: CodeEntry) => e.category == query.category.value;
        FilterExtensional(cat, sel, codes);
      } else {
        FilterKeepsAll(sel, codes);
      }
    }
  }

  /**
   * For a non-negative limit the results are the first `min(limit, #matches)`
   * matching entries in table order: none skipped, order kept.
   */
  lemma SearchIsSelectionPrefix(codes: seq<CodeEntry>, query: SearchQuery)
    requires query.limit >= 0
    ensures var sel := Selection(codes, query);
            SearchIn(codes, query) == sel[..if query.limit < |sel| then query.limit else |sel|]
  {
    StagedFiltersAreSelection(codes, query);
  }

  /** A negative limit drops that many matches from the end, as `slice` does. */
  lemma NegativeLimitDropsFromEnd(codes: seq<CodeEntry>, query: SearchQuery)
    requires query.limit < 0
    ensures var sel := Selection(codes, query);
            SearchIn(codes, query) == sel[..if |sel| + query.limit > 0 then |sel| + query.limit else 0]
  {
    StagedFiltersAreSelection(codes, query);
  }

  /**
   * Soundness: each result contains the lower-cased term in one of its four
   * lower-cased fields (when `q` is non-empty) and has the requested category.
   */
  lemma SearchSound(codes: seq<CodeEntry>, query: SearchQuery, e: CodeEntry)
    requires e in SearchIn(codes, query)
    ensures e in codes
    ensures HasText(query) ==>
              var term := Lower(query.q.value);
              Contains(Lower(e.namasteCode), term) || Contains(Lower(e.namasteDescription), term)
              || Contains(Lower(e.icd11Code), term) || Contains(Lower(e.icd11Description), term)
    ensures query.category.Some? ==> e.category == query.category.value
  {
    StagedFiltersAreSelection(codes, query);
    var sel := Selection(codes, query);
    assert e in sel;
    FilterMembership((x: CodeEntry) => Selected(x, query), codes, e);
  }

  /**
   * Completeness up to the cut: a matching entry is returned unless at least
   * `limit` matches come before it in the table.
   */
  lemma SearchComplete(codes: seq<CodeEntry>, query: SearchQuery, e: CodeEntry)
    requires query.limit >= |codes|
    requires e in codes && Selected(e, query)
    ensures e in SearchIn(codes, query)
  {
    SearchIsSelectionPrefix(codes, query);
    FilterMembership((x: CodeEntry) => Selected(x, query), codes, e);
  }

  /** With no text and no category the response is the first `limit` table entries. */
  lemma UnfilteredSearchIsTablePrefix(codes: seq<CodeEntry>, query: SearchQuery)
    requires !HasText(query) && query.category.None? && query.limit >= 0
    ensures SearchIn(codes, query) == codes[..if query.limit < |codes| then query.limit else |codes|]
  {
  }

  /** A bare search answers with the whole five-entry table: the default limit is 10. */
  lemma DefaultSearchIsWholeTable()
    ensures HandleSearchCodes(Missing, Missing, Missing) == SearchOk(MockCodes, 5)
  {
    var query := SearchQuery(None, None, 10);
    BareQueryParses();
    var results := SearchIn(MockCodes, query);
    assert HandleSearchCodes(Missing, Missing, Missing) == SearchOk(results, |results|);
    UnfilteredSearchIsTablePrefix(MockCodes, query);
    assert |MockCodes| == 5;
  }

  /** A query without parameters has no text, no category and the default limit. */
  lemma BareQueryParses()
    ensures ParseQuery(Missing, Missing, Missing) == Some(SearchQuery(None, None, 10))
  {
  }

  /** An unknown category is a 400, whatever the other parameters. */
  lemma UnknownCategoryIsRejected(q: Param, limit: Param)
    ensures SearchStatus(HandleSearchCodes(q, Given("Homeopathy"), limit)) == 400
  {
  }

  /** `Number("ten")` is NaN. */
  lemma WordIsNotANumber()
    ensures ToNumber("ten") == NaN
  {
    assert !IsDigit("ten"[0]);
  }

  /** A limit that `Number` cannot read is a 400. */
  lemma UnreadableLimitIsRejected(q: Param, category: Param)
    ensures SearchStatus(HandleSearchCodes(q, category, Given("ten"))) == 400
  {
    WordIsNotANumber();
    assert ParseQuery(q, category, Given("ten")).None?;
  }

  // --------------------------------------------------------------- lookup

  datatype LookupResponse = CodeFound(entry: CodeEntry) | CodeNotFound

  function LookupStatus(r: LookupResponse): nat
  {
    if r.CodeFound? then 200 else 404
  }

  /** `codes.find(c => c.namasteCode === code)`. */
  function LookupIn(codes: seq<CodeEntry>, code: string): (r: LookupResponse)
    ensures r.CodeNotFound? <==> forall i :: 0 <= i < |codes| ==> codes[i].namasteCode != code
    ensures r.CodeFound? ==> exists i :: 0 <= i < |codes| && codes[i] == r.entry
                               && r.entry.namasteCode == code
                               && forall j :: 0 <= j < i ==> codes[j].namasteCode != code
  {
    match Find((c: CodeEntry) => c.namasteCode == code, codes)
    case None => CodeNotFound
    case Some(c) => CodeFound(c)
  }

  /**
   * `handleGetCodeByNameste` over the mock table: 404 exactly when no mock
   * entry carries the code, otherwise a mock entry that carries it.
   */
  function HandleGetCodeByNamaste(code: string): (r: LookupResponse)
    ensures LookupStatus(r) == 404 <==> forall i :: 0 <= i < |MockCodes| ==> MockCodes[i].namasteCode != code
    ensures r.CodeFound? ==> r.entry in MockCodes && r.entry.namasteCode == code
  {
    LookupIn(MockCodes, code)
  }

  /** Lookup is case-sensitive: the lower-case spelling of a stored code is not found. */
  lemma LookupIsCaseSensitive()
    ensures HandleGetCodeByNamaste("AYR-001") == CodeFound(MockCodes[0])
    ensures LookupStatus(HandleGetCodeByNamaste("ayr-001")) == 404
  {
    var lower := "ayr-001";
    forall i | 0 <= i < |MockCodes| ensures MockCodes[i].namasteCode != lower {
      assert MockCodes[i].namasteCode[0] != lower[0];
    }
  }
}
