/**
 * The contact resource (lexware/contacts.go): Create, Get, Update on
 * /v1/contacts, and List with its string, integer and boolean filters.
 */
module Contacts {
  import opened Text
  import opened Query
  import opened Transport

  const Collection: string := "/v1/contacts"

  /** types.ContactFilterOptions. */
  datatype FilterOptions = FilterOptions(email: string, name: string, number: int, customer: bool, vendor: bool)

  /** The calls of contactsClient, with their arguments. */
  datatype Call =
    | Create
    | Get(id: string)
    | Update(id: string)
    | List(opts: Option<ListOptions>, filter: Option<FilterOptions>)

  /** The text the number filter is sent as: its decimal form, or nothing for zero. */
  function NumberText(n: int): string
  {
    if n != 0 then Itoa(n) else ""
  }

  /** The text a boolean filter is sent as: "true", or nothing when false. */
  function FlagText(b: bool): string
  {
    if b then "true" else ""
  }

  /** Each filter key of List with the text List inserts under it; "" means the insert is skipped. */
  function Texts(f: FilterOptions): map<string, string>
  {
    map["email" := f.email, "name" := f.name, "number" := NumberText(f.number),
        "customer" := FlagText(f.customer), "vendor" := FlagText(f.vendor)]
  }

  /**
   * The parameters List hands to buildQueryString: pagination, then email
   * and name when not "", number as its decimal text whenever it is not
   * zero (negative numbers included), and customer / vendor as "true"
   * when set; a false flag adds nothing. Nothing else, and no empty value.
   */
  function ListParams(opts: Option<ListOptions>, filter: Option<FilterOptions>): (r: Params)
    ensures r.Keys <= {"page", "size", "email", "name", "number", "customer", "vendor"}
    ensures forall k :: k in r ==> r[k] != ""
    ensures SameAt(r, Paginate(map[], opts), "page") && SameAt(r, Paginate(map[], opts), "size")
    ensures filter.None? ==> r == Paginate(map[], opts)
    ensures "email" in r <==> filter.Some? && filter.value.email != ""
    ensures "email" in r ==> r["email"] == filter.value.email
    ensures "name" in r <==> filter.Some? && filter.value.name != ""
    ensures "name" in r ==> r["name"] == filter.value.name
    ensures "number" in r <==> filter.Some? && filter.value.number != 0
    ensures "number" in r ==> r["number"] == Itoa(filter.value.number)
    ensures "customer" in r <==> filter.Some? && filter.value.customer
    ensures "vendor" in r <==> filter.Some? && filter.value.vendor
    ensures "customer" in r ==> r["customer"] == "true"
    ensures "vendor" in r ==> r["vendor"] == "true"
  {
    match filter
    case None => ListQuery(opts, map[])
    case Some(f) =>
      var t := Texts(f);
      assert "email" in t && "name" in t && "number" in t && "customer" in t && "vendor" in t;
      ListQuery(opts, t)
  }

  /** The map after List's inserts into p, with the source's own guards, in its order. */
  function Inserts(p: Params, f: FilterOptions): Params
  {
    var m0 := PutIf(p, f.email != "", "email", f.email);
    var m1 := PutIf(m0, f.name != "", "name", f.name);
    var m2 := PutIf(m1, f.number != 0, "number", Itoa(f.number));
    var m3 := PutIf(m2, f.customer, "customer", "true");
    PutIf(m3, f.vendor, "vendor", "true")
  }

  /** The inserts, made one by one, leave p plus exactly the filled filter texts. */
  lemma InsertsFill(p: Params, f: FilterOptions)
    ensures Inserts(p, f) == p + Filled(Texts(f))
  {
    var t: map<string, string> := map[];
    assert p + Filled(t) == p;
    FilledStep(p, t, "email", f.email);
    t := t["email" := f.email];
    FilledStep(p, t, "name", f.name);
    t := t["name" := f.name];
    FilledStep(p, t, "number", NumberText(f.number));
    t := t["number" := NumberText(f.number)];
    FilledStep(p, t, "customer", FlagText(f.customer));
    t := t["customer" := FlagText(f.customer)];
    FilledStep(p, t, "vendor", FlagText(f.vendor));
  }

  /** The target List requests (lexware/contacts.go:50-70), built field by field. */
  method ListTarget(opts: Option<ListOptions>, filter: Option<FilterOptions>) returns (target: string)
    ensures target == Collection + QueryString(ListParams(opts, filter))
  {
    var params := new ParamMap();
    AddPagination(params, opts);
    ghost var p := params.entries;
    if filter.Some? {
      var f := filter.value;
      params.SetIfNotEmpty("email", f.email);
      params.SetIfNotEmpty("name", f.name);
      ghost var m1 := params.entries;
      if f.number != 0 {
        params.Set("number", Itoa(f.number));
      }
      ghost var m2 := params.entries;
      assert m2 == PutIf(m1, f.number != 0, "number", Itoa(f.number));
      if f.customer {
        params.Set("customer", "true");
      }
      ghost var m3 := params.entries;
      assert m3 == PutIf(m2, f.customer, "customer", "true");
      if f.vendor {
        params.Set("vendor", "true");
      }
      assert params.entries == PutIf(m3, f.vendor, "vendor", "true");
      assert params.entries == Inserts(p, f);
      InsertsFill(p, f);
    }
    var qs := BuildQueryString(params.entries);
    target := Collection + qs;
  }

  /** What the server reads from List's target: /v1/contacts and exactly ListParams, escaped. */
  lemma ListReadsBack(opts: Option<ListOptions>, filter: Option<FilterOptions>)
    ensures TargetPath(Collection + QueryString(ListParams(opts, filter))) == Collection
    ensures TargetParams(Collection + QueryString(ListParams(opts, filter))) == EscapeValues(ListParams(opts, filter))
  {
    match filter
    case None =>
      ListQueryReadsBack(Collection, opts, map[]);
    case Some(f) =>
      assert Plain("email") && Plain("name") && Plain("number") && Plain("customer") && Plain("vendor");
      ListQueryReadsBack(Collection, opts, Texts(f));
  }

  /** The contact number the server reads back is the filter's number, sign included. */
  lemma NumberFilterReadsBack(opts: Option<ListOptions>, f: FilterOptions)
    requires f.number != 0
    ensures "number" in TargetParams(Collection + QueryString(ListParams(opts, Some(f))))
    ensures ParseDecimal(TargetParams(Collection + QueryString(ListParams(opts, Some(f))))["number"]) == Some(f.number)
  {
    ListReadsBack(opts, Some(f));
    NumberReadsBack(f.number);
  }

  /**
   * The route of each call: Create POSTs a body to /v1/contacts; Update
   * PUTs a body to /v1/contacts/{id}; Get sends no body to the same item
   * path; List GETs the collection with its query. There is no Delete.
   */
  function RouteOf(call: Call): (r: Route)
    ensures r.accept == Json && r.shape == Buffered
    ensures r.hasBody <==> call.Create? || call.Update?
    ensures r.verb == POST <==> call.Create?
    ensures r.verb == PUT <==> call.Update?
    ensures r.verb != DELETE
    ensures call.Create? ==> r.target == Collection && TargetParams(r.target) == map[]
    ensures (call.Get? || call.Update?) ==> r.target == Collection + "/" + call.id
    ensures (call.Get? || call.Update?) && '?' !in call.id ==>
              TargetPath(r.target) == Collection + "/" + Cut(call.id, '#').0 && TargetParams(r.target) == map[]
    ensures call.List? ==> r.target == Collection + QueryString(ListParams(call.opts, call.filter))
    ensures call.List? ==>
              TargetPath(r.target) == Collection && TargetParams(r.target) == EscapeValues(ListParams(call.opts, call.filter))
  {
    match call
    case Create =>
      PlainTarget(Collection);
      JsonRoute(POST, Collection, true)
    case Get(id) =>
      ItemReadsBack(Collection, id);
      JsonRoute(GET, Collection + "/" + id, false)
    case Update(id) =>
      ItemReadsBack(Collection, id);
      JsonRoute(PUT, Collection + "/" + id, true)
    case List(opts, filter) =>
      ListReadsBack(opts, filter);
      JsonRoute(GET, Collection + QueryString(ListParams(opts, filter)), false)
  }

}
