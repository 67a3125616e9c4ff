/**
 * The catalogue page: its fetch reads page, limit and the four filters out of the URL, asks for
 * that page of series, and shows the list with its pagination or an error.
 */
module SeriesCatalogue {
  import opened Wrappers
  import opened Text
  import opened UrlQuery
  import opened ServerActions
  import opened ApiClient
  import SeriesFilter
  import MultiSelect

  /** One page of the catalogue as the server returns it, for series of type `S`. */
  datatype SeriesList<S> = SeriesList(items: seq<S>, total: int, page: int, limit: int, totalPages: int)

  /** The pagination the page keeps in its state. */
  datatype Paging = Paging(total: int, page: int, limit: int, totalPages: int)

  const InitialPaging := Paging(0, 1, 24, 1)

  const FetchFailedMessage := "Failed to fetch series"

  // ---------------------------------------------------------------------------------------
  // Reading the URL
  // ---------------------------------------------------------------------------------------

  /** `parseInt(searchParams.get(name) || fallback, 10)`; `None` is `NaN`. */
  function NumberOf(ps: Params, name: string, fallback: string): Option<int> {
    ParseInt(OrElse(Get(ps, name).GetOr(""), fallback))
  }

  function PageOf(ps: Params): Option<int> {
    NumberOf(ps, "page", "1")
  }

  function LimitOf(ps: Params): Option<int> {
    NumberOf(ps, "limit", "24")
  }

  /** A list filter: the comma-split parameter when it is present and non-empty. */
  function ListOf(param: Option<string>): Option<seq<string>> {
    if param.Some? && param.value != "" then Some(Split(param.value, ",")) else None
  }

  /** The search filter: the parameter when it is present and non-empty. */
  function SearchOf(param: Option<string>): Option<string> {
    if param.Some? && param.value != "" then param else None
  }

  /** The filters record the fetch fills from the URL; it is passed even when every field is unset. */
  function FiltersOf(ps: Params): SeriesFilters {
    SeriesFilters(
      ListOf(Get(ps, "status")),
      ListOf(Get(ps, "novelType")),
      ListOf(Get(ps, "categories")),
      SearchOf(Get(ps, "search")))
  }

  /** The fetch fills the filters record field by field from the URL. */
  method ReadFilters(searchParams: Params) returns (filters: SeriesFilters)
    ensures filters == FiltersOf(searchParams)
  {
    var status := Get(searchParams, "status");
    var novelType := Get(searchParams, "novelType");
    var categories := Get(searchParams, "categories");
    var search := Get(searchParams, "search");
    filters := SeriesFilters(None, None, None, None);
    if status.Some? && status.value != "" {
      filters := filters.(status := Some(Split(status.value, ",")));
    }
    if novelType.Some? && novelType.value != "" {
      filters := filters.(novelType := Some(Split(novelType.value, ",")));
    }
    if categories.Some? && categories.value != "" {
      filters := filters.(categories := Some(Split(categories.value, ",")));
    }
    if search.Some? && search.value != "" {
      filters := filters.(search := search);
    }
  }

  // ---------------------------------------------------------------------------------------
  // The page
  // ---------------------------------------------------------------------------------------

  class CataloguePage<S> {
    /** The parameters of the page's URL. */
    const searchParams: Params
    var series: seq<S>
    var loading: bool
    var error: Option<string>
    var paging: Paging
    /** The server actions called, in order. */
    var calls: seq<Action>

    constructor(searchParams: Params)
      ensures this.searchParams == searchParams
      ensures series == [] && loading && error.None? && paging == InitialPaging && calls == []
    {
      this.searchParams := searchParams;
      series := [];
      loading := true;
      error := None;
      paging := InitialPaging;
      calls := [];
    }

    /**
     * The fetch effect, with `reply` as what awaiting `getAllSeriesAction` gave. Success with
     * data replaces the list and the pagination; anything else sets an error with a fallback
     * and keeps them. Loading ends in every case.
     */
    method Fetch(reply: Reply<SeriesList<S>>)
      modifies this
      ensures calls == old(calls) + [GetAllSeriesAction(PageOf(searchParams), LimitOf(searchParams), Some(FiltersOf(searchParams)))]
      ensures !loading
      ensures reply.Returned? && reply.result.Ok? && reply.result.data.Some? ==>
        (var d := reply.result.data.value;
         series == d.items && paging == Paging(d.total, d.page, d.limit, d.totalPages) && error.None?)
      ensures reply.Returned? && reply.result.Ok? && reply.result.data.None? ==>
        series == old(series) && paging == old(paging) && error == Some(FetchFailedMessage)
      ensures reply.Returned? && reply.result.Err? ==>
        series == old(series) && paging == old(paging) && error == Some(OrElse(reply.result.error, FetchFailedMessage))
      ensures reply.Threw? ==>
        series == old(series) && paging == old(paging) && error == Some(OrElse(reply.message, UnexpectedErrorMessage))
    {
      loading := true;
      error := None;
      var page := NumberOf(searchParams, "page", "1");
      var limit := NumberOf(searchParams, "limit", "24");
      var filters := ReadFilters(searchParams);
      calls := calls + [GetAllSeriesAction(page, limit, Some(filters))];
      match reply {
        case Returned(result) =>
          if result.Ok? && result.data.Some? {
            var d := result.data.value;
            series := d.items;
            paging := Paging(d.total, d.page, d.limit, d.totalPages);
          } else {
            error := Some(OrElse(if result.Err? then result.error else "", FetchFailedMessage));
          }
        case Threw(message) =>
          error := Some(OrElse(message, UnexpectedErrorMessage));
      }
      loading := false;
    }
  }

  // ---------------------------------------------------------------------------------------
  // Properties
  // ---------------------------------------------------------------------------------------

  /** With no page or limit in the URL, or an empty one, the fetch asks for page 1 of 24. */
  lemma Defaults(ps: Params)
    ensures Get(ps, "page").GetOr("") == "" ==> PageOf(ps) == Some(1)
    ensures Get(ps, "limit").GetOr("") == "" ==> LimitOf(ps) == Some(24)
  {
    ParseIntRoundTrip(1);
    ParseIntRoundTrip(24);
    assert IntToString(1) == "1";
    assert IntToString(24) == NatToString(2) + [DigitChar(4)] == "24";
  }

  /** A number written into the URL is read back as that number. */
  lemma NumberReadBack(ps: Params, name: string, n: nat, fallback: string)
    requires Get(ps, name) == Some(IntToString(n))
    ensures NumberOf(ps, name, fallback) == Some(n)
  {
    ParseIntRoundTrip(n);
  }

  /**
   * A filter parameter split on "," and joined again by the client is the parameter itself: the
   * request carries each filter of the URL unchanged, and an empty one not at all.
   */
  lemma ListRejoined(param: Option<string>)
    ensures ListParam(ListOf(param)) == if param == Some("") then None else param
  {
    if param.Some? && param.value != "" {
      SplitNonEmpty(param.value, ",");
      JoinSplit(param.value, ",");
    }
  }

  /** Each filter the catalogue request carries is the URL's parameter, dropped when empty. */
  lemma RequestCarriesUrlFilters(ps: Params, name: string)
    requires name in {"status", "novelType", "categories", "search"}
    ensures ExpectedSeriesParam(PageOf(ps), LimitOf(ps), Some(FiltersOf(ps)), name)
      == if Get(ps, name) == Some("") then None else Get(ps, name)
  {
    ListRejoined(Get(ps, name));
  }

  /**
   * From "Apply Filters" to the catalogue request: opening the URL the filter panel pushes, the
   * fetch asks for page 1 and sends each filter exactly as the panel wrote it.
   */
  lemma AppliedFiltersReachRequest(ps: Params, c: SeriesFilter.Filters, name: string)
    requires SeriesFilter.PlainFilters(c)
    requires name in {"status", "novelType", "categories", "search"}
    ensures var q := Parse(QueryOf(SeriesFilter.ApplyHref(ps, c)));
      PageOf(q) == Some(1)
      && ExpectedSeriesParam(PageOf(q), LimitOf(q), Some(FiltersOf(q)), name) == Get(SeriesFilter.Applied(ps, c), name)
  {
    var q := Parse(QueryOf(SeriesFilter.ApplyHref(ps, c)));
    SeriesFilter.ApplyHrefQuery(ps, c);
    SeriesFilter.AppliedReads(ps, c, "");
    assert "1" == IntToString(1);
    NumberReadBack(q, "page", 1, "1");
    RequestCarriesUrlFilters(q, name);
    NonEmptyListValue(c.status);
    NonEmptyListValue(c.novelType);
    NonEmptyListValue(c.categories);
  }

  /** A selection of plain values never becomes an empty parameter. */
  lemma NonEmptyListValue(selected: seq<MultiSelect.Choice>)
    requires SeriesFilter.PlainValues(selected)
    ensures SeriesFilter.ListValue(selected) != Some("")
  {
    if |selected| > 0 {
      SeriesFilter.ListValueSplits(selected);
    }
  }
}
