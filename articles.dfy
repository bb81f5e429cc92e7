/**
 * The article resource (lexware/articles.go): Create, Get, Update, Delete
 * on /v1/articles, and List with its filter-to-parameter mapping.
 */
module Articles {
  import opened Text
  import opened Query
  import opened Transport

  const Collection: string := "/v1/articles"

  /**
   * types.ArticleFilterOptions. articleType holds the ArticleType text
   * ("PRODUCT" or "SERVICE"), or "" when the filter is not set.
   */
  datatype FilterOptions = FilterOptions(articleNumber: string, gtin: string, articleType: string)

  /** The calls of articlesClient, with their arguments. */
  datatype Call =
    | Create
    | Get(id: string)
    | Update(id: string)
    | Delete(id: string)
    | List(opts: Option<ListOptions>, filter: Option<FilterOptions>)

  /** Each filter key of List with the text List inserts under it; "" means the insert is skipped. */
  function Texts(f: FilterOptions): map<string, string>
  {
    map["articleNumber" := f.articleNumber, "gtin" := f.gtin, "type" := f.articleType]
  }

  /**
   * The parameters List hands to buildQueryString: pagination, then
   * articleNumber, gtin and type, each exactly when its filter field is
   * not "", carrying the field verbatim. Nothing else, and no empty value.
   */
  function ListParams(opts: Option<ListOptions>, filter: Option<FilterOptions>): (r: Params)
    ensures r.Keys <= {"page", "size", "articleNumber", "gtin", "type"}
    ensures forall k :: k in r ==> r[k] != ""
    ensures SameAt(r, Paginate(map[], opts), "page") && SameAt(r, Paginate(map[], opts), "size")
    ensures filter.None? ==> r == Paginate(map[], opts)
    ensures "articleNumber" in r <==> filter.Some? && filter.value.articleNumber != ""
    ensures "articleNumber" in r ==> r["articleNumber"] == filter.value.articleNumber
    ensures "gtin" in r <==> filter.Some? && filter.value.gtin != ""
    ensures "gtin" in r ==> r["gtin"] == filter.value.gtin
    ensures "type" in r <==> filter.Some? && filter.value.articleType != ""
    ensures "type" in r ==> r["type"] == filter.value.articleType
  {
    match filter
    case None => ListQuery(opts, map[])
    case Some(f) =>
      assert "articleNumber" in Texts(f) && "gtin" in Texts(f) && "type" in Texts(f);
      ListQuery(opts, Texts(f))
  }

  /** The map after List's inserts into p, in the source's order. */
  function Inserts(p: Params, f: FilterOptions): Params
  {
    var m0 := PutIf(p, f.articleNumber != "", "articleNumber", f.articleNumber);
    var m1 := PutIf(m0, f.gtin != "", "gtin", f.gtin);
    PutIf(m1, f.articleType != "", "type", f.articleType)
  }

  /** The inserts, made one by one, leave p plus exactly the filled filter texts. */
  lemma InsertsFill(p: Params, f: FilterOptions)
    ensures Inserts(p, f) == p + Filled(Texts(f))
  {
    var t: map<string, string> := map[];
    assert p + Filled(t) == p;
    FilledStep(p, t, "articleNumber", f.articleNumber);
    t := t["articleNumber" := f.articleNumber];
    FilledStep(p, t, "gtin", f.gtin);
    t := t["gtin" := f.gtin];
    FilledStep(p, t, "type", f.articleType);
  }

  /**
   * The target List requests (lexware/articles.go:55-68), built as the
   * source builds it: a fresh map, addPagination, the conditional inserts,
   * then buildQueryString appended to the collection path.
   */
  method ListTarget(opts: Option<ListOptions>, filter: Option<FilterOptions>) returns (target: string)
    ensures target == Collection + QueryString(ListParams(opts, filter))
  {
    var params := new ParamMap();
    AddPagination(params, opts);
    ghost var p := params.entries;
    if filter.Some? {
      var f := filter.value;
      params.SetIfNotEmpty("articleNumber", f.articleNumber);
      params.SetIfNotEmpty("gtin", f.gtin);
      params.SetIfNotEmpty("type", f.articleType);
      assert params.entries == Inserts(p, f);
      InsertsFill(p, f);
    }
    var qs := BuildQueryString(params.entries);
    target := Collection + qs;
  }

  /**
   * What the server reads from List's target: the path /v1/articles and
   * exactly the parameters of ListParams, values escaped.
   */
  lemma ListReadsBack(opts: Option<ListOptions>, filter: Option<FilterOptions>)
    ensures TargetPath(Collection + QueryString(ListParams(opts, filter))) == Collection
    ensures TargetParams(Collection + QueryString(ListParams(opts, filter))) == EscapeValues(ListParams(opts, filter))
  {
    match filter
    case None =>
      ListQueryReadsBack(Collection, opts, map[]);
    case Some(f) =>
      assert Plain("articleNumber") && Plain("gtin") && Plain("type");
      ListQueryReadsBack(Collection, opts, Texts(f));
  }

  /**
   * The route of each call: Create POSTs a body to /v1/articles; Update
   * PUTs a body to /v1/articles/{id}; Get and Delete send no body to the
   * same item path; List GETs the collection with its query. All go
   * through doRequest with a JSON Accept.
   */
  function RouteOf(call: Call): (r: Route)
    ensures r.accept == Json && r.shape == Buffered
    ensures r.hasBody <==> call.Create? || call.Update?
    ensures r.verb == POST <==> call.Create?
    ensures r.verb == PUT <==> call.Update?
    ensures r.verb == DELETE <==> call.Delete?
    ensures call.Create? ==> r.target == Collection && TargetParams(r.target) == map[]
    ensures !call.Create? && !call.List? ==> r.target == Collection + "/" + call.id
    ensures !call.Create? && !call.List? && '?' !in call.id ==>
              TargetPath(r.target) == Collection + "/" + Cut(call.id, '#').0 && TargetParams(r.target) == map[]
    ensures call.List? ==> r.target == Collection + QueryString(ListParams(call.opts, call.filter))
    ensures call.List? ==>
              TargetPath(r.target) == Collection && TargetParams(r.target) == EscapeValues(ListParams(call.opts, call.filter))
  {
    match call
    case Create =>
      PlainTarget(Collection);
      JsonRoute(POST, Collection, true)
    case Get(id) =>
      ItemReadsBack(Collection, id);
      JsonRoute(GET, Collection + "/" + id, false)
    case Update(id) =>
      ItemReadsBack(Collection, id);
      JsonRoute(PUT, Collection + "/" + id, true)
    case Delete(id) =>
      ItemReadsBack(Collection, id);
      JsonRoute(DELETE, Collection + "/" + id, false)
    case List(opts, filter) =>
      ListReadsBack(opts, filter);
      JsonRoute(GET, Collection + QueryString(ListParams(opts, filter)), false)
  }


  /** With no filter, List sends nothing but pagination. */
  lemma UnfilteredListIsPaginationOnly(opts: Option<ListOptions>)
    ensures ListParams(opts, None) == Paginate(map[], opts)
    ensures TargetParams(RouteOf(List(opts, None)).target) == EscapeValues(Paginate(map[], opts))
    ensures opts.None? ==> RouteOf(List(opts, None)).target == Collection
  {
  }
}
