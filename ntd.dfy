/**
 * The record filter and page loop of `fetchNTDData` (src/analysis/ntd/index.ts).
 *
 * The GraphQL client is the sequence of responses it gives, one per
 * request in turn; a response without edges is `None`.  A record's
 * `values` object is a map from field name to a JSON value.
 */
module Ntd {
  import opened Wrappers
  import JsNum

  /** A JSON value of a record field, as far as the filters look at it. */
  datatype JsValue = JStr(s: string) | JNum(n: int) | JBool(b: bool) | JNull

  datatype RawValue = RawValue(geoid: string, datasetName: string, values: map<string, JsValue>)

  predicate Truthy(v: JsValue) {
    match v
    case JStr(s) => s != ""
    case JNum(n) => n != 0
    case JBool(b) => b
    case JNull => false
  }

  /** `String(v)`. */
  function ToString(v: JsValue): string {
    match v
    case JStr(s) => s
    case JNum(n) => JsNum.IntToString(n)
    case JBool(b) => if b then "true" else "false"
    case JNull => "null"
  }

  /** `value.values[name]`, an absent field being `undefined` (here `JNull`, equally falsy). */
  function Field(v: RawValue, name: string): JsValue {
    if name in v.values then v.values[name] else JNull
  }

  /** `String(value.values[name] || '')`. */
  function FieldText(v: RawValue, name: string): (r: string)
    ensures !Truthy(Field(v, name)) ==> r == ""
  {
    var x := Field(v, name);
    if Truthy(x) then ToString(x) else ""
  }

  /** `parseInt(String(value.values[name] || 0), 10)`; `None` is NaN. */
  function FieldYear(v: RawValue, name: string): (r: Option<int>)
    ensures !Truthy(Field(v, name)) ==> r == Some(0)
  {
    var x := Field(v, name);
    JsNum.ParseIntOfNatToString(0);
    assert JsNum.NatToString(0) == "0";
    JsNum.ParseInt10(if Truthy(x) then ToString(x) else "0")
  }

  function UpperChar(c: char): (d: char)
    ensures !('a' <= d <= 'z')
  {
    if 'a' <= c <= 'z' then (c as int - 32) as char else c
  }

  /** `toUpperCase()` on the ASCII letters. */
  function Upper(s: string): (r: string)
    ensures |r| == |s| && forall i :: 0 <= i < |s| ==> r[i] == UpperChar(s[i])
  {
    seq(|s|, i requires 0 <= i < |s| => UpperChar(s[i]))
  }

  lemma UpperIdempotent(s: string)
    ensures Upper(Upper(s)) == Upper(s)
  {
  }

  /** `s.includes(sub)`. */
  predicate Contains(s: string, sub: string)
    decreases |s|
  {
    |sub| <= |s| && (s[..|sub|] == sub || Contains(s[1..], sub))
  }

  // ---------------------------------------------------------------------
  // Configuration
  // ---------------------------------------------------------------------

  datatype FieldNames = FieldNames(state: string, reportYear: string, mode: string, typeOfService: string, uzaName: string)

  const DefaultFields := FieldNames("state", "report_year", "mode", "type_of_service", "primary_uza_name")

  /** The field mappings a caller passes; `None` is a property it leaves out. */
  datatype FieldMappings = FieldMappings(state: Option<string>, reportYear: Option<string>, mode: Option<string>,
                                         typeOfService: Option<string>, uzaName: Option<string>)

  /** `{ ...DEFAULT_FIELD_MAPPINGS, ...fieldMappings }`. */
  function ResolveFields(m: FieldMappings): (f: FieldNames)
    ensures m.state.Some? ==> f.state == m.state.value
    ensures m.state.None? ==> f.state == DefaultFields.state
    ensures m.reportYear.Some? ==> f.reportYear == m.reportYear.value
    ensures m.reportYear.None? ==> f.reportYear == DefaultFields.reportYear
    ensures m.mode.Some? ==> f.mode == m.mode.value
    ensures m.mode.None? ==> f.mode == DefaultFields.mode
    ensures m.typeOfService.Some? ==> f.typeOfService == m.typeOfService.value
    ensures m.typeOfService.None? ==> f.typeOfService == DefaultFields.typeOfService
    ensures m.uzaName.Some? ==> f.uzaName == m.uzaName.value
    ensures m.uzaName.None? ==> f.uzaName == DefaultFields.uzaName
  {
    FieldNames(m.state.GetOr(DefaultFields.state), m.reportYear.GetOr(DefaultFields.reportYear),
               m.mode.GetOr(DefaultFields.mode), m.typeOfService.GetOr(DefaultFields.typeOfService),
               m.uzaName.GetOr(DefaultFields.uzaName))
  }

  datatype FilterConfig = FilterConfig(
    state: Option<string>,
    year: Option<int>,
    years: Option<seq<int>>,
    modes: Option<seq<string>>,
    typeOfService: Option<seq<string>>,
    excludeNonUza: bool,
    customFilter: Option<RawValue -> bool>)

  /** The state to match, upper-cased; `None` when no state filter applies. */
  function StateFilter(cfg: FilterConfig): (r: Option<string>)
    ensures r.Some? <==> cfg.state.Some? && cfg.state.value != ""
  {
    if cfg.state.Some? && Upper(cfg.state.value) != "" then Some(Upper(cfg.state.value)) else None
  }

  /** `years ? new Set(years) : year ? new Set([year]) : null`. */
  function YearSet(cfg: FilterConfig): (r: Option<set<int>>)
    ensures cfg.years.Some? ==> r == Some(set y | y in cfg.years.value)
    ensures cfg.years.None? ==> (r.Some? <==> cfg.year.Some? && cfg.year.value != 0)
    ensures cfg.years.None? && r.Some? ==> r.value == {cfg.year.value}
  {
    if cfg.years.Some? then Some(set y | y in cfg.years.value)
    else if cfg.year.Some? && cfg.year.value != 0 then Some({cfg.year.value})
    else None
  }

  predicate IsNonUza(uza: string) {
    uza == "" || uza == "N/A" || Contains(uza, "Non-UZA")
  }

  /** Whether one record passes every active filter, in the order the source tests them. */
  predicate Keep(v: RawValue, cfg: FilterConfig, f: FieldNames) {
    (StateFilter(cfg).Some? ==> Upper(FieldText(v, f.state)) == StateFilter(cfg).value) &&
    (YearSet(cfg).Some? ==> var y := FieldYear(v, f.reportYear); y.Some? && y.value in YearSet(cfg).value) &&
    (cfg.modes.Some? ==> FieldText(v, f.mode) in cfg.modes.value) &&
    (cfg.typeOfService.Some? ==> FieldText(v, f.typeOfService) in cfg.typeOfService.value) &&
    (cfg.excludeNonUza ==> !IsNonUza(FieldText(v, f.uzaName))) &&
    (cfg.customFilter.Some? ==> cfg.customFilter.value(v))
  }

  /** The kept records of a list, in order. */
  function FilterValues(vs: seq<RawValue>, cfg: FilterConfig, f: FieldNames): (r: seq<RawValue>)
    ensures |r| <= |vs|
  {
    if vs == [] then []
    else
      var last := vs[|vs| - 1];
      FilterValues(vs[..|vs| - 1], cfg, f) + (if Keep(last, cfg, f) then [last] else [])
  }

  // ---------------------------------------------------------------------
  // Properties of the filter
  // ---------------------------------------------------------------------

  /** A record is kept iff it was fetched and passes the filters. */
  lemma {:induction false} FilterValuesMember(vs: seq<RawValue>, cfg: FilterConfig, f: FieldNames, v: RawValue)
    ensures v in FilterValues(vs, cfg, f) <==> v in vs && Keep(v, cfg, f)
  {
    if vs != [] {
      FilterValuesMember(vs[..|vs| - 1], cfg, f, v);
      assert vs == vs[..|vs| - 1] + [vs[|vs| - 1]];
    }
  }

  /** Filtering keeps fetch order: the kept records of two batches are those of each, one after the other. */
  lemma {:induction false} FilterValuesConcat(a: seq<RawValue>, b: seq<RawValue>, cfg: FilterConfig, f: FieldNames)
    ensures FilterValues(a + b, cfg, f) == FilterValues(a, cfg, f) + FilterValues(b, cfg, f)
  {
    if b == [] {
      assert a + b == a;
    } else {
      assert (a + b)[..|a + b| - 1] == a + b[..|b| - 1];
      FilterValuesConcat(a, b[..|b| - 1], cfg, f);
    }
  }

  /** A list of years overrides a single year. */
  lemma YearsTakePrecedence(v: RawValue, cfg: FilterConfig, f: FieldNames, year: Option<int>)
    requires cfg.years.Some?
    ensures Keep(v, cfg, f) <==> Keep(v, cfg.(year := year), f)
  {
  }

  /** A year of 0 is no year filter at all. */
  lemma YearZeroIsNoFilter(v: RawValue, cfg: FilterConfig, f: FieldNames)
    requires cfg.years.None?
    ensures Keep(v, cfg.(year := Some(0)), f) <==> Keep(v, cfg.(year := None), f)
  {
  }

  /** An empty list of years, unlike an absent one, keeps nothing. */
  lemma EmptyYearsKeepNothing(v: RawValue, cfg: FilterConfig, f: FieldNames)
    requires cfg.years == Some([])
    ensures !Keep(v, cfg, f)
  {
  }

  /** The state is compared without regard to the case of its letters. */
  lemma StateCaseInsensitive(v: RawValue, cfg: FilterConfig, f: FieldNames, s: string)
    ensures Keep(v, cfg.(state := Some(s)), f) <==> Keep(v, cfg.(state := Some(Upper(s))), f)
  {
    UpperIdempotent(s);
  }

  /** With `excludeNonUZA`, records with an empty, `N/A` or `Non-UZA` urbanized area are dropped. */
  lemma NonUzaExcluded(v: RawValue, cfg: FilterConfig, f: FieldNames)
    requires cfg.excludeNonUza
    ensures var uza := FieldText(v, f.uzaName);
      uza == "" || uza == "N/A" || Contains(uza, "Non-UZA") ==> !Keep(v, cfg, f)
  {
  }

  /** A configuration with no filter keeps every record. */
  lemma NoFilterKeepsAll(v: RawValue, f: FieldNames)
    ensures Keep(v, FilterConfig(None, None, None, None, None, false, None), f)
  {
  }

  // ---------------------------------------------------------------------
  // The page loop
  // ---------------------------------------------------------------------

  datatype Page = Page(edges: seq<RawValue>, hasNextPage: bool, endCursor: string)

  /** A response after which the loop stops: one without edges, or the last page. */
  predicate Ends(r: Option<Page>) {
    r.None? || !r.value.hasNextPage
  }

  /** The pages whose edges the loop reads: up to and including the first ending one. */
  function Consumed(responses: seq<Option<Page>>): (r: seq<Page>)
    ensures |r| <= |responses|
  {
    if responses == [] || responses[0].None? then []
    else if !responses[0].value.hasNextPage then [responses[0].value]
    else [responses[0].value] + Consumed(responses[1..])
  }

  function AllEdges(pages: seq<Page>): seq<RawValue> {
    if pages == [] then [] else AllEdges(pages[..|pages| - 1]) + pages[|pages| - 1].edges
  }

  /** The `after` cursor sent with each request: none at first, then each page's end cursor when non-empty. */
  function After(pages: seq<Page>, k: nat): (r: Option<string>)
    requires k <= |pages|
  {
    if k == 0 || pages[k - 1].endCursor == "" then None else Some(pages[k - 1].endCursor)
  }

  /** Reading `read` (all pages saying there is more) and then an ending response. */
  lemma {:induction false} ConsumedSplit(responses: seq<Option<Page>>, read: seq<Page>)
    requires |read| < |responses| && Ends(responses[|read|])
    requires forall j :: 0 <= j < |read| ==> responses[j] == Some(read[j]) && read[j].hasNextPage
    ensures Consumed(responses) == read + (if responses[|read|].Some? then [responses[|read|].value] else [])
  {
    if read != [] {
      ConsumedSplit(responses[1..], read[1..]);
      assert read == [read[0]] + read[1..];
    }
  }

  lemma AllEdgesSnoc(pages: seq<Page>, p: Page)
    ensures AllEdges(pages + [p]) == AllEdges(pages) + p.edges
  {
    assert (pages + [p])[..|pages|] == pages;
  }

  lemma AfterSnoc(pages: seq<Page>, p: Page, j: nat)
    requires j <= |pages|
    ensures After(pages + [p], j) == After(pages, j)
  {
    if j > 0 {
      assert (pages + [p])[j - 1] == pages[j - 1];
    }
  }

  lemma RequestsSnoc(requests: seq<Option<string>>, read: seq<Page>, page: Page)
    requires |requests| == |read| + 1
    requires forall j :: 0 <= j < |requests| ==> requests[j] == After(read, j)
    ensures forall j :: 0 <= j < |requests| ==> requests[j] == After(read + [page], j)
  {
    forall j | 0 <= j < |requests|
      ensures requests[j] == After(read + [page], j)
    {
      AfterSnoc(read, page, j);
    }
  }

  /** The body of the loop over one page's edges: counts each edge and keeps those that pass. */
  method ReadEdges(edges: seq<RawValue>, cfg: FilterConfig, f: FieldNames, before: seq<RawValue>,
                   filtered0: seq<RawValue>, total0: nat)
    returns (filtered: seq<RawValue>, totalFetched: nat)
    requires filtered0 == FilterValues(before, cfg, f) && total0 == |before|
    ensures filtered == FilterValues(before + edges, cfg, f) && totalFetched == |before + edges|
  {
    filtered, totalFetched := filtered0, total0;
    assert before + edges[..0] == before;
    for e := 0 to |edges|
      invariant filtered == FilterValues(before + edges[..e], cfg, f)
      invariant totalFetched == |before| + e
    {
      var value := edges[e];
      totalFetched := totalFetched + 1;
      assert (before + edges[..e + 1])[..|before| + e] == before + edges[..e];
      if Keep(value, cfg, f) {
        filtered := filtered + [value];
      }
    }
    assert edges[..|edges|] == edges;
  }

  /** One page's edges read after the pages `read`. */
  method ReadPage(read: seq<Page>, page: Page, cfg: FilterConfig, f: FieldNames, filtered0: seq<RawValue>, total0: nat)
    returns (filtered: seq<RawValue>, totalFetched: nat)
    requires filtered0 == FilterValues(AllEdges(read), cfg, f) && total0 == |AllEdges(read)|
    ensures filtered == FilterValues(AllEdges(read + [page]), cfg, f) && totalFetched == |AllEdges(read + [page])|
  {
    filtered, totalFetched := ReadEdges(page.edges, cfg, f, AllEdges(read), filtered0, total0);
    AllEdgesSnoc(read, page);
  }

  /** The records kept and counted after reading `read`. */
  ghost predicate Fetched(filtered: seq<RawValue>, totalFetched: nat, read: seq<Page>, cfg: FilterConfig, f: FieldNames)
  {
    filtered == FilterValues(AllEdges(read), cfg, f) && totalFetched == |AllEdges(read)|
  }

  /** The pages read so far each came as a response that said there is more. */
  ghost predicate SaidMore(responses: seq<Option<Page>>, read: seq<Page>)
  {
    |read| <= |responses| && forall j :: 0 <= j < |read| ==> responses[j] == Some(read[j]) && read[j].hasNextPage
  }

  /** Each request so far carried the cursor of the page before it. */
  ghost predicate RequestsAfter(requests: seq<Option<string>>, read: seq<Page>)
  {
    |requests| <= |read| + 1 && forall j :: 0 <= j < |requests| ==> requests[j] == After(read, j)
  }

  lemma RequestsAppend(requests: seq<Option<string>>, read: seq<Page>)
    requires RequestsAfter(requests, read) && |requests| == |read|
    ensures RequestsAfter(requests + [After(read, |read|)], read)
  {
  }

  /** Once the pages read are the consumed ones, each request carried the cursor of the page before it. */
  lemma RequestsConsumed(requests: seq<Option<string>>, responses: seq<Option<Page>>)
    requires RequestsAfter(requests, Consumed(responses))
    ensures forall j :: 0 <= j < |requests| && j <= |Consumed(responses)| ==> requests[j] == After(Consumed(responses), j)
  {
  }

  lemma SaidMoreSnoc(responses: seq<Option<Page>>, read: seq<Page>, page: Page)
    requires SaidMore(responses, read) && |read| < |responses|
    requires responses[|read|] == Some(page) && page.hasNextPage
    ensures SaidMore(responses, read + [page])
  {
  }

  /**
   * `fetchNTDData`: requests pages until one says there is no next page or
   * comes without edges, keeping the records that pass the filters.
   * Returns the kept records, the number of records fetched and the cursor
   * sent with each request.
   */
  method FetchNtdData(responses: seq<Option<Page>>, cfg: FilterConfig, mappings: FieldMappings)
    returns (filtered: seq<RawValue>, totalFetched: nat, requests: seq<Option<string>>)
    requires exists k :: 0 <= k < |responses| && Ends(responses[k])
    ensures filtered == FilterValues(AllEdges(Consumed(responses)), cfg, ResolveFields(mappings))
    ensures totalFetched == |AllEdges(Consumed(responses))|
    ensures 1 <= |requests| <= |responses|
    ensures forall j :: 0 <= j < |requests| && j <= |Consumed(responses)| ==> requests[j] == After(Consumed(responses), j)
  {
    var f := ResolveFields(mappings);
    filtered, totalFetched, requests := [], 0, [];
    var hasNextPage := true;
    var afterCursor: Option<string> := None;
    var read: seq<Page> := [];
    ghost var end :| 0 <= end < |responses| && Ends(responses[end]);
    while hasNextPage
      invariant |read| <= |responses| && |requests| == |read|
      invariant hasNextPage ==> SaidMore(responses, read) && |read| <= end
      invariant hasNextPage ==> afterCursor == After(read, |read|)
      invariant !hasNextPage ==> read == Consumed(responses) && |read| >= 1
      invariant Fetched(filtered, totalFetched, read, cfg, f)
      invariant RequestsAfter(requests, read)
      decreases |responses| - |read|, hasNextPage
    {
      var k := |read|;
      RequestsAppend(requests, read);
      requests := requests + [afterCursor];
      var response := responses[k];
      if response.None? {
        ConsumedSplit(responses, read);
        assert Consumed(responses) == read;
        // the source breaks out of the loop; nothing but the result follows it
        RequestsConsumed(requests, responses);
        return;
      }
      var page := response.value;
      filtered, totalFetched := ReadPage(read, page, cfg, f, filtered, totalFetched);
      RequestsSnoc(requests, read, page);
      hasNextPage := page.hasNextPage;
      afterCursor := if page.endCursor != "" then Some(page.endCursor) else None;
      if !hasNextPage {
        ConsumedSplit(responses, read);
      } else {
        SaidMoreSnoc(responses, read, page);
      }
      read := read + [page];
    }
    RequestsConsumed(requests, responses);
  }
}
