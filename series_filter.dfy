/**
 * The catalogue's filter panel: the status, type and genre drop-downs and the search box hold
 * the selections being edited, a second copy holds the filters the URL carries, and "Apply
 * Filters" writes the selections into the query of `/series`, resetting it to page 1.
 */
module SeriesFilter {
  import opened Wrappers
  import opened Text
  import opened UrlQuery
  import opened Sorting
  import opened MultiSelect
  import opened ServerActions
  import Routes

  const StatusOptions: seq<Choice> := [Choice("Ongoing", "ongoing"), Choice("Completed", "completed")]

  const NovelTypeOptions: seq<Choice> :=
    [Choice("Novel", "novel"), Choice("Manga", "manga"), Choice("Manhwa", "manhwa")]

  const StatusKey := "status"
  const NovelTypeKey := "novelType"
  const CategoriesKey := "categories"
  const SearchKey := "search"
  const PageKey := "page"

  /** The four filters, either as edited or as applied. */
  datatype Filters = Filters(status: seq<Choice>, novelType: seq<Choice>, categories: seq<Choice>, search: string)

  const NoFilters := Filters([], [], [], "")

  // ---------------------------------------------------------------------------------------
  // Reading the filters from the URL
  // ---------------------------------------------------------------------------------------

  /** `options.filter((opt) => values.includes(opt.value))` */
  function Pick(options: seq<Choice>, values: seq<string>): (r: seq<Choice>)
    ensures forall c :: c in r <==> c in options && c.value in values
  {
    if |options| == 0 then []
    else (if options[0].value in values then [options[0]] else []) + Pick(options[1..], values)
  }

  /** A list parameter read into a selection: nothing when it is absent or empty. */
  function Selection(options: seq<Choice>, param: Option<string>): seq<Choice> {
    if param.Some? && param.value != "" then Pick(options, Split(param.value, ",")) else []
  }

  /** The filters the panel initialises from a query, for the genres loaded so far. */
  function FromQuery(ps: Params, categoryOptions: seq<Choice>): Filters {
    Filters(
      Selection(StatusOptions, Get(ps, StatusKey)),
      Selection(NovelTypeOptions, Get(ps, NovelTypeKey)),
      Selection(categoryOptions, Get(ps, CategoriesKey)),
      Get(ps, SearchKey).GetOr(""))
  }

  /** The genre options built from the names the server returns. */
  function CategoryChoices(names: seq<string>): (r: seq<Choice>)
    ensures Values(r) == names
    ensures forall k :: 0 <= k < |r| ==> r[k].text == names[k]
  {
    seq(|names|, k requires 0 <= k < |names| => Choice(names[k], names[k]))
  }

  // ---------------------------------------------------------------------------------------
  // Comparing edited and applied filters
  // ---------------------------------------------------------------------------------------

  /** A selection reduced to its sorted values joined with ",". */
  function Fingerprint(selected: seq<Choice>): string {
    Join(Sort(Values(selected)), ",")
  }

  /** `hasUnsavedChanges()` for edited filters `c` and applied filters `a`. */
  predicate Unsaved(c: Filters, a: Filters) {
    Fingerprint(c.status) != Fingerprint(a.status)
    || Fingerprint(c.novelType) != Fingerprint(a.novelType)
    || Fingerprint(c.categories) != Fingerprint(a.categories)
    || Trim(c.search) != a.search
  }

  /** Values as the server can send them: non-empty and without ",". */
  predicate PlainValues(selected: seq<Choice>) {
    forall k :: 0 <= k < |selected| ==> selected[k].value != "" && ',' !in selected[k].value
  }

  predicate PlainFilters(f: Filters) {
    PlainValues(f.status) && PlainValues(f.novelType) && PlainValues(f.categories)
  }

  /** `activeFiltersCount`: one per applied option and one for a search. */
  function Count(a: Filters): nat {
    |a.status| + |a.novelType| + |a.categories| + (if a.search != "" then 1 else 0)
  }

  // ---------------------------------------------------------------------------------------
  // Writing the filters into the URL
  // ---------------------------------------------------------------------------------------

  /** A selection as a parameter: its values joined with ",", when it has any. */
  function ListValue(selected: seq<Choice>): Option<string> {
    if |selected| > 0 then Some(Join(Values(selected), ",")) else None
  }

  /** The search as a parameter: trimmed, when anything is left. */
  function SearchValue(search: string): Option<string> {
    if Trim(search) != "" then Some(Trim(search)) else None
  }

  /** `params.set(name, v)` for a value, `params.delete(name)` for none. */
  function Update(ps: Params, name: string, v: Option<string>): Params {
    if v.Some? then Set(ps, name, v.value) else Delete(ps, name)
  }

  /** The query "Apply Filters" builds from the current one. */
  function Applied(ps: Params, c: Filters): Params {
    Set(
      Update(
        Update(
          Update(
            Update(ps, StatusKey, ListValue(c.status)),
            NovelTypeKey, ListValue(c.novelType)),
          CategoriesKey, ListValue(c.categories)),
        SearchKey, SearchValue(c.search)),
      PageKey, "1")
  }

  /** The catalogue URL with a query. */
  function SeriesHref(ps: Params): string {
    Routes.SeriesPage + "?" + Serialize(ps)
  }

  /** The URL "Apply Filters" pushes. */
  function ApplyHref(searchParams: Params, c: Filters): string {
    SeriesHref(Applied(searchParams, c))
  }

  /** The page's query after the router follows that URL is the query the panel built. */
  lemma ApplyHrefReadsBack(ps: Params, c: Filters)
    ensures Parse(QueryOf(ApplyHref(ps, c))) == Applied(ps, c)
  {
    assert forall k :: 0 <= k < |Routes.SeriesPage| ==> Routes.SeriesPage[k] != '?';
    QueryAfterMark(Routes.SeriesPage, Serialize(Applied(ps, c)));
    ParseSerialize(Applied(ps, c));
  }

  /** The filters "Apply Filters" records as applied: the selections and the trimmed search. */
  function AppliedFrom(c: Filters): Filters {
    Filters(c.status, c.novelType, c.categories, Trim(c.search))
  }

  /** One filter written into the query: `params.set` when it has a value, `params.delete` otherwise. */
  method SetOrDelete(params: Params, name: string, v: Option<string>) returns (r: Params)
    ensures r == Update(params, name, v)
  {
    if v.Some? {
      r := Set(params, name, v.value);
    } else {
      r := Delete(params, name);
    }
  }

  /**
   * The query "Apply Filters" builds: a copy of the current one, each filter set or deleted,
   * and page 1.
   */
  method ApplyUrl(searchParams: Params, c: Filters) returns (href: string)
    ensures href == ApplyHref(searchParams, c)
  {
    ParseSerialize(searchParams);
    var params := Parse(Serialize(searchParams));
    params := SetOrDelete(params, StatusKey, ListValue(c.status));
    params := SetOrDelete(params, NovelTypeKey, ListValue(c.novelType));
    params := SetOrDelete(params, CategoriesKey, ListValue(c.categories));
    params := SetOrDelete(params, SearchKey, SearchValue(c.search));
    params := Set(params, PageKey, "1");
    href := SeriesHref(params);
  }

  // ---------------------------------------------------------------------------------------
  // The panel
  // ---------------------------------------------------------------------------------------

  class FilterPanel {
    /** The parameters of the page's URL, which the router changes when the panel pushes a URL. */
    var searchParams: Params
    var isOpen: bool
    var status: seq<Choice>
    var novelType: seq<Choice>
    var categories: seq<Choice>
    var categoryOptions: seq<Choice>
    var search: string
    var appliedStatus: seq<Choice>
    var appliedNovelType: seq<Choice>
    var appliedCategories: seq<Choice>
    var appliedSearch: string
    var isInitialized: bool
    /** The URLs pushed to the router, in order. */
    var navigations: seq<string>
    /** The server actions called, in order. */
    var calls: seq<Action>

    function Current(): Filters
      reads this
    {
      Filters(status, novelType, categories, search)
    }

    function AppliedFilters(): Filters
      reads this
    {
      Filters(appliedStatus, appliedNovelType, appliedCategories, appliedSearch)
    }

    /** Whether "Apply Filters" is enabled and the unsaved-changes note shows. */
    predicate HasUnsavedChanges()
      reads this
    {
      Unsaved(Current(), AppliedFilters())
    }

    /** The number on the "Filters" button, shown when positive. */
    function ActiveFiltersCount(): nat
      reads this
    {
      Count(AppliedFilters())
    }

    constructor(searchParams: Params)
      ensures this.searchParams == searchParams
      ensures !isOpen && !isInitialized
      ensures Current() == NoFilters && AppliedFilters() == NoFilters
      ensures categoryOptions == [] && navigations == [] && calls == []
    {
      this.searchParams := searchParams;
      isOpen := false;
      status := [];
      novelType := [];
      categories := [];
      categoryOptions := [];
      search := "";
      appliedStatus := [];
      appliedNovelType := [];
      appliedCategories := [];
      appliedSearch := "";
      isInitialized := false;
      navigations := [];
      calls := [];
    }

    /** The "Filters" button opens or closes the panel. */
    method ToggleOpen()
      modifies this
      ensures searchParams == old(searchParams)
      ensures isOpen == !old(isOpen)
      ensures Current() == old(Current()) && AppliedFilters() == old(AppliedFilters())
      ensures categoryOptions == old(categoryOptions) && isInitialized == old(isInitialized)
      ensures navigations == old(navigations) && calls == old(calls)
    {
      isOpen := !isOpen;
    }

    /** The genres arrive: a successful result with data becomes the genre options. */
    method LoadCategories(result: ActionResult<seq<string>>)
      modifies this
      ensures searchParams == old(searchParams)
      ensures calls == old(calls) + [GetCategoriesAction]
      ensures result.Ok? && result.data.Some? ==> categoryOptions == CategoryChoices(result.data.value)
      ensures !(result.Ok? && result.data.Some?) ==> categoryOptions == old(categoryOptions)
      ensures Current() == old(Current()) && AppliedFilters() == old(AppliedFilters())
      ensures isOpen == old(isOpen) && isInitialized == old(isInitialized)
      ensures navigations == old(navigations)
    {
      calls := calls + [GetCategoriesAction];
      if result.Ok? && result.data.Some? {
        categoryOptions := CategoryChoices(result.data.value);
      }
    }

    /**
     * Once the genres are loaded, and only the first time, both copies of the filters are set
     * from the URL.
     */
    method Initialize()
      modifies this
      ensures searchParams == old(searchParams)
      ensures old(isInitialized) || |old(categoryOptions)| == 0 ==>
        Current() == old(Current()) && AppliedFilters() == old(AppliedFilters()) && isInitialized == old(isInitialized)
      ensures !old(isInitialized) && |old(categoryOptions)| > 0 ==>
        (isInitialized && Current() == FromQuery(searchParams, categoryOptions) && AppliedFilters() == Current())
      // Nothing is unsaved then, unless the URL's search has surrounding whitespace: the edited
      // search is compared trimmed and the applied one is not.
      ensures !old(isInitialized) && |old(categoryOptions)| > 0 ==> (HasUnsavedChanges() <==> Trim(search) != search)
      ensures categoryOptions == old(categoryOptions) && isOpen == old(isOpen)
      ensures navigations == old(navigations) && calls == old(calls)
    {
      if isInitialized || |categoryOptions| == 0 {
        return;
      }
      // Each list parameter, when present and non-empty, is split at "," and the options
      // whose value occurs among the pieces are kept, in the options' order; a non-empty
      // search parameter is taken as it is.
      var initial := FromQuery(searchParams, categoryOptions);
      SetBoth(initial);
      isInitialized := true;
    }

    /** Both the edited and the applied copy of the filters take `f`. */
    method SetBoth(f: Filters)
      modifies this
      ensures Current() == f && AppliedFilters() == f
      ensures searchParams == old(searchParams) && categoryOptions == old(categoryOptions)
      ensures isOpen == old(isOpen) && isInitialized == old(isInitialized)
      ensures navigations == old(navigations) && calls == old(calls)
    {
      status, appliedStatus := f.status, f.status;
      novelType, appliedNovelType := f.novelType, f.novelType;
      categories, appliedCategories := f.categories, f.categories;
      search, appliedSearch := f.search, f.search;
    }

    /** The status drop-down's `onChange`. */
    method ChangeStatus(selected: seq<Choice>)
      modifies this
      ensures searchParams == old(searchParams)
      ensures Current() == old(Current()).(status := selected)
      ensures AppliedFilters() == old(AppliedFilters())
      ensures categoryOptions == old(categoryOptions) && isOpen == old(isOpen) && isInitialized == old(isInitialized)
      ensures navigations == old(navigations) && calls == old(calls)
    {
      status := selected;
    }

    /** The type drop-down's `onChange`. */
    method ChangeNovelType(selected: seq<Choice>)
      modifies this
      ensures searchParams == old(searchParams)
      ensures Current() == old(Current()).(novelType := selected)
      ensures AppliedFilters() == old(AppliedFilters())
      ensures categoryOptions == old(categoryOptions) && isOpen == old(isOpen) && isInitialized == old(isInitialized)
      ensures navigations == old(navigations) && calls == old(calls)
    {
      novelType := selected;
    }

    /** The genre drop-down's `onChange`. */
    method ChangeCategories(selected: seq<Choice>)
      modifies this
      ensures searchParams == old(searchParams)
      ensures Current() == old(Current()).(categories := selected)
      ensures AppliedFilters() == old(AppliedFilters())
      ensures categoryOptions == old(categoryOptions) && isOpen == old(isOpen) && isInitialized == old(isInitialized)
      ensures navigations == old(navigations) && calls == old(calls)
    {
      categories := selected;
    }

    /** Typing in the search box. */
    method ChangeSearch(text: string)
      modifies this
      ensures searchParams == old(searchParams)
      ensures Current() == old(Current()).(search := text)
      ensures AppliedFilters() == old(AppliedFilters())
      ensures categoryOptions == old(categoryOptions) && isOpen == old(isOpen) && isInitialized == old(isInitialized)
      ensures navigations == old(navigations) && calls == old(calls)
    {
      search := text;
    }

    /** The applied copy takes the selections and the trimmed search. */
    method CatchUp()
      modifies this
      ensures searchParams == old(searchParams)
      ensures Current() == old(Current())
      ensures AppliedFilters() == AppliedFrom(Current())
      ensures !HasUnsavedChanges()
      ensures categoryOptions == old(categoryOptions) && isOpen == old(isOpen) && isInitialized == old(isInitialized)
      ensures navigations == old(navigations) && calls == old(calls)
    {
      var edited := Current();
      appliedStatus := edited.status;
      appliedNovelType := edited.novelType;
      appliedCategories := edited.categories;
      appliedSearch := Trim(edited.search);
      NothingUnsavedAfterApply(edited);
    }

    /**
     * "Apply Filters": the query gets the selections, the trimmed search and page 1, the
     * applied copy catches up with the edited one, and the catalogue URL is pushed. The page's
     * query is then the one read back from that URL, and nothing is left unsaved.
     */
    method Apply()
      modifies this
      ensures navigations == old(navigations) + [ApplyHref(old(searchParams), old(Current()))]
      ensures searchParams == Applied(old(searchParams), old(Current()))
      ensures Current() == old(Current())
      ensures AppliedFilters() == AppliedFrom(Current())
      ensures !HasUnsavedChanges()
      ensures categoryOptions == old(categoryOptions) && isOpen == old(isOpen) && isInitialized == old(isInitialized)
      ensures calls == old(calls)
    {
      var edited := Current();
      var href := ApplyUrl(searchParams, edited);
      // The router's new URL is what the page's query is read from afterwards.
      ApplyHrefReadsBack(searchParams, edited);
      var next := Parse(QueryOf(href));
      navigations, searchParams := navigations + [href], next;
      CatchUp();
    }
  }

  // ---------------------------------------------------------------------------------------
  // Properties
  // ---------------------------------------------------------------------------------------

  /** Once applied, the edited filters have nothing unsaved against the applied copy. */
  lemma NothingUnsavedAfterApply(c: Filters)
    ensures !Unsaved(c, AppliedFrom(c))
  {
    TrimIdempotent(c.search);
  }

  /** A non-empty selection of plain values is a non-empty parameter that splits back into them. */
  lemma ListValueSplits(selected: seq<Choice>)
    requires |selected| > 0 && PlainValues(selected)
    ensures ListValue(selected).Some? && ListValue(selected).value != ""
    ensures Split(ListValue(selected).value, ",") == Values(selected)
  {
    JoinNonEmpty(Values(selected), ",");
    SplitJoin(Values(selected), ',');
  }

  /**
   * Two selections of plain values have the same fingerprint exactly when they hold the same
   * values, as often: the comparison ignores the order in which options were clicked.
   */
  lemma FingerprintIff(a: seq<Choice>, b: seq<Choice>)
    requires PlainValues(a) && PlainValues(b)
    ensures Fingerprint(a) == Fingerprint(b) <==> multiset(Values(a)) == multiset(Values(b))
  {
    SortEqualIff(Values(a), Values(b));
    if Fingerprint(a) == Fingerprint(b) {
      SortSpec(Values(a));
      SortSpec(Values(b));
      var sa, sb := Sort(Values(a)), Sort(Values(b));
      SortedPlain(Values(a));
      SortedPlain(Values(b));
      if |sa| > 0 && |sb| > 0 {
        SplitJoin(sa, ',');
        SplitJoin(sb, ',');
      } else if |sa| > 0 {
        JoinNonEmpty(sa, ",");
      } else if |sb| > 0 {
        JoinNonEmpty(sb, ",");
      }
    }
  }

  /** Sorting moves plain values around and keeps them plain. */
  lemma SortedPlain(vs: seq<string>)
    requires forall k :: 0 <= k < |vs| ==> vs[k] != "" && ',' !in vs[k]
    ensures forall k :: 0 <= k < |Sort(vs)| ==> Sort(vs)[k] != "" && ',' !in Sort(vs)[k]
  {
    SortSpec(vs);
    forall k | 0 <= k < |Sort(vs)|
      ensures Sort(vs)[k] != "" && ',' !in Sort(vs)[k]
    {
      assert Sort(vs)[k] in multiset(vs);
      var j :| 0 <= j < |vs| && vs[j] == Sort(vs)[k];
    }
  }

  /**
   * For plain values, the edited filters count as unsaved exactly when some selection holds
   * different values from its applied copy, or the trimmed search differs from the applied one.
   */
  lemma UnsavedIff(c: Filters, a: Filters)
    requires PlainFilters(c) && PlainFilters(a)
    ensures !Unsaved(c, a) <==>
      (multiset(Values(c.status)) == multiset(Values(a.status))
      && multiset(Values(c.novelType)) == multiset(Values(a.novelType))
      && multiset(Values(c.categories)) == multiset(Values(a.categories))
      && Trim(c.search) == a.search)
  {
    FingerprintIff(c.status, a.status);
    FingerprintIff(c.novelType, a.novelType);
    FingerprintIff(c.categories, a.categories);
  }

  /** `Update` leaves the named parameter holding the value and every other name as it was. */
  lemma UpdateReads(ps: Params, name: string, v: Option<string>, other: string)
    ensures Get(Update(ps, name, v), name) == v
    ensures other != name ==> Get(Update(ps, name, v), other) == Get(ps, other)
    ensures other != name ==> Named(Update(ps, name, v), other) == Named(ps, other)
  {
    GetSet(ps, name, v.GetOr(""), other);
    SetSemantics(ps, name, v.GetOr(""), other);
    GetDelete(ps, name, other);
    NamedDelete(ps, name, other);
  }

  /**
   * The query "Apply Filters" builds reads back page 1, each selection joined with ",", the
   * trimmed search when one is left, and every other parameter exactly as before.
   */
  lemma AppliedReads(ps: Params, c: Filters, other: string)
    ensures Get(Applied(ps, c), PageKey) == Some("1")
    ensures Get(Applied(ps, c), StatusKey) == ListValue(c.status)
    ensures Get(Applied(ps, c), NovelTypeKey) == ListValue(c.novelType)
    ensures Get(Applied(ps, c), CategoriesKey) == ListValue(c.categories)
    ensures Get(Applied(ps, c), SearchKey) == SearchValue(c.search)
    ensures other !in {PageKey, StatusKey, NovelTypeKey, CategoriesKey, SearchKey} ==>
      Named(Applied(ps, c), other) == Named(ps, other)
  {
    var p1 := Update(ps, StatusKey, ListValue(c.status));
    var p2 := Update(p1, NovelTypeKey, ListValue(c.novelType));
    var p3 := Update(p2, CategoriesKey, ListValue(c.categories));
    var p4 := Update(p3, SearchKey, SearchValue(c.search));
    UpdateReads(ps, StatusKey, ListValue(c.status), other);
    UpdateReads(p1, NovelTypeKey, ListValue(c.novelType), other);
    UpdateReads(p2, CategoriesKey, ListValue(c.categories), other);
    UpdateReads(p3, SearchKey, SearchValue(c.search), other);
    GetSet(p4, PageKey, "1", other);
    SetSemantics(p4, PageKey, "1", other);
    UpdateReads(ps, StatusKey, ListValue(c.status), NovelTypeKey);
    UpdateReads(ps, StatusKey, ListValue(c.status), CategoriesKey);
    UpdateReads(ps, StatusKey, ListValue(c.status), SearchKey);
    UpdateReads(p1, NovelTypeKey, ListValue(c.novelType), StatusKey);
    UpdateReads(p1, NovelTypeKey, ListValue(c.novelType), CategoriesKey);
    UpdateReads(p1, NovelTypeKey, ListValue(c.novelType), SearchKey);
    UpdateReads(p2, CategoriesKey, ListValue(c.categories), StatusKey);
    UpdateReads(p2, CategoriesKey, ListValue(c.categories), NovelTypeKey);
    UpdateReads(p2, CategoriesKey, ListValue(c.categories), SearchKey);
    UpdateReads(p3, SearchKey, SearchValue(c.search), StatusKey);
    UpdateReads(p3, SearchKey, SearchValue(c.search), NovelTypeKey);
    UpdateReads(p3, SearchKey, SearchValue(c.search), CategoriesKey);
    GetSet(p4, PageKey, "1", StatusKey);
    GetSet(p4, PageKey, "1", NovelTypeKey);
    GetSet(p4, PageKey, "1", CategoriesKey);
    GetSet(p4, PageKey, "1", SearchKey);
  }

  /** The query of the pushed URL is the query "Apply Filters" built. */
  lemma ApplyHrefQuery(ps: Params, c: Filters)
    ensures Parse(QueryOf(ApplyHref(ps, c))) == Applied(ps, c)
  {
    assert '?' !in Routes.SeriesPage;
    QueryAfterMark(Routes.SeriesPage, Serialize(Applied(ps, c)));
    ParseSerialize(Applied(ps, c));
  }

  /**
   * The badge on the "Filters" button is zero after applying exactly when the pushed URL
   * carries none of the four filters.
   */
  lemma NoBadgeIffNoFilterInUrl(ps: Params, c: Filters)
    ensures Count(AppliedFrom(c)) == 0 <==>
      (var q := Parse(QueryOf(ApplyHref(ps, c)));
       Get(q, StatusKey).None? && Get(q, NovelTypeKey).None?
       && Get(q, CategoriesKey).None? && Get(q, SearchKey).None?)
  {
    ApplyHrefQuery(ps, c);
    AppliedReads(ps, c, "");
  }

  /** A sequence without repeats holds each of its elements once. */
  lemma {:induction false} DistinctCount(vs: seq<string>, x: string)
    requires forall i, j :: 0 <= i < j < |vs| ==> vs[i] != vs[j]
    ensures multiset(vs)[x] == if x in vs then 1 else 0
  {
    if |vs| > 0 {
      assert vs == [vs[0]] + vs[1..];
      DistinctCount(vs[1..], x);
      if x == vs[0] {
        assert x !in vs[1..] by {
          forall j | 0 <= j < |vs[1..]|
            ensures vs[1..][j] != x
          {
            assert vs[1..][j] == vs[j + 1];
          }
        }
      }
    }
  }

  /** Picking options keeps their order, so their values stay free of repeats. */
  lemma {:induction false} PickDistinct(options: seq<Choice>, values: seq<string>)
    requires Distinct(options)
    ensures Distinct(Pick(options, values))
  {
    if |options| > 0 {
      var rest := Pick(options[1..], values);
      assert Distinct(options[1..]) by {
        forall i, j | 0 <= i < j < |options[1..]|
          ensures options[1..][i].value != options[1..][j].value
        {
          assert options[1..][i] == options[i + 1] && options[1..][j] == options[j + 1];
        }
      }
      PickDistinct(options[1..], values);
      if options[0].value in values {
        var r := [options[0]] + rest;
        forall i, j | 0 <= i < j < |r|
          ensures r[i].value != r[j].value
        {
          if i == 0 {
            assert r[j] in options[1..];
            var k :| 0 <= k < |options[1..]| && options[1..][k] == r[j];
            assert options[k + 1] == r[j];
          } else {
            assert r[i] == rest[i - 1] && r[j] == rest[j - 1];
          }
        }
      }
    }
  }

  /**
   * Reading back the values of a selection drawn from the options picks the same options'
   * values: the same strings, each once.
   */
  lemma PickValues(options: seq<Choice>, selected: seq<Choice>)
    requires Distinct(options) && Distinct(selected)
    requires forall k :: 0 <= k < |selected| ==> selected[k] in options
    ensures multiset(Values(Pick(options, Values(selected)))) == multiset(Values(selected))
  {
    PickDistinct(options, Values(selected));
    var a, b := Values(Pick(options, Values(selected))), Values(selected);
    forall x
      ensures multiset(a)[x] == multiset(b)[x]
    {
      PickSameValues(options, selected, x);
      DistinctCount(a, x);
      DistinctCount(b, x);
    }
    assert multiset(a) == multiset(b);
  }

  /** A value is among the picked options' values exactly when it is among the selection's. */
  lemma PickSameValues(options: seq<Choice>, selected: seq<Choice>, x: string)
    requires forall k :: 0 <= k < |selected| ==> selected[k] in options
    ensures x in Values(Pick(options, Values(selected))) <==> x in Values(selected)
  {
    var picked := Pick(options, Values(selected));
    var a, b := Values(picked), Values(selected);
    if x in b {
      var k :| 0 <= k < |b| && b[k] == x;
      assert selected[k] in picked;
      var j :| 0 <= j < |picked| && picked[j] == selected[k];
      assert a[j] == x;
    }
    if x in a {
      var j :| 0 <= j < |a| && a[j] == x;
      assert picked[j] in picked;
    }
  }


  /** The fixed option lists are plain and hold each value once. */
  lemma OptionListsWellFormed()
    ensures Distinct(StatusOptions) && PlainValues(StatusOptions)
    ensures Distinct(NovelTypeOptions) && PlainValues(NovelTypeOptions)
  {
  }

  /** One selection survives the trip through the URL: its parameter reads back as its values. */
  lemma SelectionRoundTrip(options: seq<Choice>, selected: seq<Choice>)
    requires Distinct(options) && PlainValues(options) && Distinct(selected)
    requires forall k :: 0 <= k < |selected| ==> selected[k] in options
    ensures multiset(Values(Selection(options, ListValue(selected)))) == multiset(Values(selected))
  {
    if |selected| > 0 {
      assert PlainValues(selected) by {
        forall k | 0 <= k < |selected|
          ensures selected[k].value != "" && ',' !in selected[k].value
        {
          var j :| 0 <= j < |options| && options[j] == selected[k];
        }
      }
      ListValueSplits(selected);
      PickValues(options, selected);
    }
  }

  /**
   * Applying filters and opening the pushed URL in a fresh panel gives back what was applied:
   * each selection's values, as often, and the trimmed search.
   */
  lemma ReopenAppliedUrl(ps: Params, c: Filters, categoryOptions: seq<Choice>)
    requires Distinct(categoryOptions) && PlainValues(categoryOptions)
    requires Distinct(c.status) && Distinct(c.novelType) && Distinct(c.categories)
    requires forall k :: 0 <= k < |c.status| ==> c.status[k] in StatusOptions
    requires forall k :: 0 <= k < |c.novelType| ==> c.novelType[k] in NovelTypeOptions
    requires forall k :: 0 <= k < |c.categories| ==> c.categories[k] in categoryOptions
    ensures var r := FromQuery(Parse(QueryOf(ApplyHref(ps, c))), categoryOptions);
      multiset(Values(r.status)) == multiset(Values(c.status))
      && multiset(Values(r.novelType)) == multiset(Values(c.novelType))
      && multiset(Values(r.categories)) == multiset(Values(c.categories))
      && r.search == Trim(c.search)
  {
    ApplyHrefQuery(ps, c);
    AppliedReads(ps, c, "");
    OptionListsWellFormed();
    SelectionRoundTrip(StatusOptions, c.status);
    SelectionRoundTrip(NovelTypeOptions, c.novelType);
    SelectionRoundTrip(categoryOptions, c.categories);
    TrimEmptyIffBlank(c.search);
  }

  /** So the reopened panel shows no unsaved change against the panel that applied them. */
  lemma ReopenedPanelSaved(ps: Params, c: Filters, categoryOptions: seq<Choice>)
    requires Distinct(categoryOptions) && PlainValues(categoryOptions)
    requires Distinct(c.status) && Distinct(c.novelType) && Distinct(c.categories)
    requires forall k :: 0 <= k < |c.status| ==> c.status[k] in StatusOptions
    requires forall k :: 0 <= k < |c.novelType| ==> c.novelType[k] in NovelTypeOptions
    requires forall k :: 0 <= k < |c.categories| ==> c.categories[k] in categoryOptions
    ensures !Unsaved(FromQuery(Parse(QueryOf(ApplyHref(ps, c))), categoryOptions), AppliedFrom(c))
  {
    var r := FromQuery(Parse(QueryOf(ApplyHref(ps, c))), categoryOptions);
    ReopenAppliedUrl(ps, c, categoryOptions);
    SortEqualIff(Values(r.status), Values(c.status));
    SortEqualIff(Values(r.novelType), Values(c.novelType));
    SortEqualIff(Values(r.categories), Values(c.categories));
    TrimIdempotent(c.search);
  }
}
