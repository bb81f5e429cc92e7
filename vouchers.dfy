/**
 * The bookkeeping voucher resource (lexware/vouchers.go): Create, Get,
 * Update and List on /v1/vouchers, the file upload to a voucher, and the
 * separate voucher list on /v1/voucherlist with its ten filters.
 */
module Vouchers {
  import opened Text
  import opened Query
  import opened Transport

  const Collection: string := "/v1/vouchers"

  /** The VoucherStatus values the types package names. */
  const Statuses: set<string> := {"draft", "open", "paid", "paidoff", "voided"}

  /** types.VoucherFilterOptions; voucherStatus is a VoucherStatus text or "". */
  datatype FilterOptions = FilterOptions(voucherNumber: string, voucherStatus: string, contactId: string)

  /** The calls of vouchersClient that go through doRequest. */
  datatype Call =
    | Create
    | Get(id: string)
    | Update(id: string)
    | List(opts: Option<ListOptions>, filter: Option<FilterOptions>)

  /** Each filter key of List with the text List inserts under it; "" means the insert is skipped. */
  function Texts(f: FilterOptions): map<string, string>
  {
    map["voucherNumber" := f.voucherNumber, "voucherStatus" := f.voucherStatus, "contactId" := f.contactId]
  }

  /**
   * The parameters List hands to buildQueryString: pagination, then
   * voucherNumber, voucherStatus and contactId, each exactly when its
   * filter field is not "", verbatim. Nothing else, and no empty value.
   */
  function ListParams(opts: Option<ListOptions>, filter: Option<FilterOptions>): (r: Params)
    ensures r.Keys <= {"page", "size", "voucherNumber", "voucherStatus", "contactId"}
    ensures forall k :: k in r ==> r[k] != ""
    ensures SameAt(r, Paginate(map[], opts), "page") && SameAt(r, Paginate(map[], opts), "size")
    ensures filter.None? ==> r == Paginate(map[], opts)
    ensures "voucherNumber" in r <==> filter.Some? && filter.value.voucherNumber != ""
    ensures "voucherNumber" in r ==> r["voucherNumber"] == filter.value.voucherNumber
    ensures "voucherStatus" in r <==> filter.Some? && filter.value.voucherStatus != ""
    ensures "voucherStatus" in r ==> r["voucherStatus"] == filter.value.voucherStatus
    ensures "contactId" in r <==> filter.Some? && filter.value.contactId != ""
    ensures "contactId" in r ==> r["contactId"] == filter.value.contactId
  {
    match filter
    case None => ListQuery(opts, map[])
    case Some(f) =>
      assert "voucherNumber" in Texts(f) && "voucherStatus" in Texts(f) && "contactId" in Texts(f);
      ListQuery(opts, Texts(f))
  }

  /** The map after List's inserts into p, in the source's order. */
  function Inserts(p: Params, f: FilterOptions): Params
  {
    var m0 := PutIf(p, f.voucherNumber != "", "voucherNumber", f.voucherNumber);
    var m1 := PutIf(m0, f.voucherStatus != "", "voucherStatus", f.voucherStatus);
    PutIf(m1, f.contactId != "", "contactId", f.contactId)
  }

  /** The inserts, made one by one, leave p plus exactly the filled filter texts. */
  lemma InsertsFill(p: Params, f: FilterOptions)
    ensures Inserts(p, f) == p + Filled(Texts(f))
  {
    var t: map<string, string> := map[];
    assert p + Filled(t) == p;
    FilledStep(p, t, "voucherNumber", f.voucherNumber);
    t := t["voucherNumber" := f.voucherNumber];
    FilledStep(p, t, "voucherStatus", f.voucherStatus);
    t := t["voucherStatus" := f.voucherStatus];
    FilledStep(p, t, "contactId", f.contactId);
  }

  /** The target List requests (lexware/vouchers.go:53-67), built field by field. */
  method ListTarget(opts: Option<ListOptions>, filter: Option<FilterOptions>) returns (target: string)
    ensures target == Collection + QueryString(ListParams(opts, filter))
  {
    var params := new ParamMap();
    AddPagination(params, opts);
    ghost var p := params.entries;
    if filter.Some? {
      var f := filter.value;
      params.SetIfNotEmpty("voucherNumber", f.voucherNumber);
      params.SetIfNotEmpty("voucherStatus", f.voucherStatus);
      params.SetIfNotEmpty("contactId", f.contactId);
      assert params.entries == Inserts(p, f);
      InsertsFill(p, f);
    }
    var qs := BuildQueryString(params.entries);
    target := Collection + qs;
  }

  /** What the server reads from List's target: /v1/vouchers and exactly ListParams, escaped. */
  lemma ListReadsBack(opts: Option<ListOptions>, filter: Option<FilterOptions>)
    ensures TargetPath(Collection + QueryString(ListParams(opts, filter))) == Collection
    ensures TargetParams(Collection + QueryString(ListParams(opts, filter))) == EscapeValues(ListParams(opts, filter))
  {
    match filter
    case None =>
      ListQueryReadsBack(Collection, opts, map[]);
    case Some(f) =>
      assert Plain("voucherNumber") && Plain("voucherStatus") && Plain("contactId");
      ListQueryReadsBack(Collection, opts, Texts(f));
  }

  /** Every named voucher status reaches the server exactly as written. */
  lemma StatusFilterVerbatim(opts: Option<ListOptions>, f: FilterOptions)
    requires f.voucherStatus in Statuses
    ensures var sent := TargetParams(Collection + QueryString(ListParams(opts, Some(f))));
            "voucherStatus" in sent && sent["voucherStatus"] == f.voucherStatus
  {
    var r := ListParams(opts, Some(f));
    assert f.voucherStatus != "";
    assert "voucherStatus" in r && r["voucherStatus"] == f.voucherStatus;
    StatusesPlain();
    assert QueryEscape(f.voucherStatus) == f.voucherStatus;
    ListReadsBack(opts, Some(f));
  }

  lemma StatusesPlain()
    ensures forall s :: s in Statuses ==> Plain(s)
  {
    assert Plain("draft") && Plain("open") && Plain("paid") && Plain("paidoff") && Plain("voided");
  }

  /**
   * The route of each call: Create POSTs a body to /v1/vouchers; Update
   * PUTs a body to /v1/vouchers/{id}; Get sends no body to the same item
   * path; List GETs the collection with its query.
   */
  function RouteOf(call: Call): (r: Route)
    ensures r.accept == Json && r.shape == Buffered
    ensures r.hasBody <==> call.Create? || call.Update?
    ensures r.verb == POST <==> call.Create?
    ensures r.verb == PUT <==> call.Update?
    ensures r.verb != DELETE
    ensures call.Create? ==> r.target == Collection && TargetParams(r.target) == map[]
    ensures (call.Get? || call.Update?) ==> r.target == Collection + "/" + call.id
    ensures (call.Get? || call.Update?) && '?' !in call.id ==>
              TargetPath(r.target) == Collection + "/" + Cut(call.id, '#').0 && TargetParams(r.target) == map[]
    ensures call.List? ==> r.target == Collection + QueryString(ListParams(call.opts, call.filter))
    ensures call.List? ==>
              TargetPath(r.target) == Collection && TargetParams(r.target) == EscapeValues(ListParams(call.opts, call.filter))
  {
    match call
    case Create =>
      PlainTarget(Collection);
      JsonRoute(POST, Collection, true)
    case Get(id) =>
      ItemReadsBack(Collection, id);
      JsonRoute(GET, Collection + "/" + id, false)
    case Update(id) =>
      ItemReadsBack(Collection, id);
      JsonRoute(PUT, Collection + "/" + id, true)
    case List(opts, filter) =>
      ListReadsBack(opts, filter);
      JsonRoute(GET, Collection + QueryString(ListParams(opts, filter)), false)
  }


  /** The path UploadFile posts to. */
  function FilesPath(id: string): string
  {
    Collection + "/" + id + "/files"
  }

  /**
   * UploadFile (lexware/vouchers.go:78-108): the content is copied into a
   * form holding the single part "file" (a failing read of the content
   * stops the call), the form is POSTed to /v1/vouchers/{id}/files with the
   * bearer key, the multipart Content-Type and a JSON Accept, and the reply
   * is judged by its status alone: 2xx is success, anything else is
   * APIError{status, body read so far}.
   */
  method UploadFile(c: Client, id: string, filename: string, content: Readable, boundary: string, send: Transport)
    returns (o: Outcome<()>)
    ensures content.FailsAfter? <==> o == LocalErr(CopyFailed)
    ensures content.Complete? ==>
              o == ClassifyStatus(send(MultipartRequest(c, FilesPath(id), [FilePart("file", filename, content.text)], boundary)))
  {
    if content.FailsAfter? {
      return LocalErr(CopyFailed);
    }
    var parts := [FilePart("file", filename, content.text)];
    var req := MultipartRequest(c, FilesPath(id), parts, boundary);
    var reply := send(req);
    if reply.TransportFailed? {
      return LocalErr(ExecuteFailed);
    }
    if reply.status < 200 || reply.status >= 300 {
      return ApiErr(ApiError(reply.status, reply.body.Text()));
    }
    return Ok(());
  }
}

/**
 * The voucher list (voucherListClient in lexware/vouchers.go): one List
 * call on /v1/voucherlist with ten optional filters, archived among them
 * three-valued.
 */
module VoucherList {
  import opened Text
  import opened Query
  import opened Transport

  const Collection: string := "/v1/voucherlist"

  /** The VoucherType values the types package names. */
  const VoucherTypes: set<string> :=
    {"salesinvoice", "salescreditnote", "purchaseinvoice", "purchasecreditnote", "invoice",
     "creditnote", "orderconfirmation", "quotation", "deliverynote", "downpaymentinvoice"}

  /** types.VoucherListFilterOptions; archived is a *bool, None when nil. */
  datatype FilterOptions = FilterOptions(
    voucherType: string,
    voucherStatus: string,
    archived: Option<bool>,
    contactId: string,
    voucherDateFrom: string,
    voucherDateTo: string,
    createdDateFrom: string,
    createdDateTo: string,
    updatedDateFrom: string,
    updatedDateTo: string)

  /** The text archived is sent as: absent for nil, "true" or "false" otherwise. */
  function ArchivedText(archived: Option<bool>): string
  {
    match archived
    case None => ""
    case Some(b) => if b then "true" else "false"
  }

  /**
   * Each filter key of List with the text List inserts under it; "" means
   * the insert is skipped.
   */
  function Texts(f: FilterOptions): map<string, string>
  {
    map["voucherType" := f.voucherType,
        "voucherStatus" := f.voucherStatus,
        "archived" := ArchivedText(f.archived),
        "contactId" := f.contactId,
        "voucherDateFrom" := f.voucherDateFrom,
        "voucherDateTo" := f.voucherDateTo,
        "createdDateFrom" := f.createdDateFrom,
        "createdDateTo" := f.createdDateTo,
        "updatedDateFrom" := f.updatedDateFrom,
        "updatedDateTo" := f.updatedDateTo]
  }

  /**
   * The parameters List hands to buildQueryString: pagination, then each
   * filter field that is set, under its own key (ListQuery's contract: no
   * other key, no empty value). archived, the one three-valued filter, is
   * sent exactly when it is not nil, as "true" or "false"; the nine string
   * filters are stated by StringFiltersVerbatim and DateFiltersVerbatim.
   */
  function ListParams(opts: Option<ListOptions>, filter: Option<FilterOptions>): (r: Params)
    ensures filter.None? ==> r == Paginate(map[], opts)
    ensures "archived" in r <==> filter.Some? && filter.value.archived.Some?
    ensures "archived" in r ==> r["archived"] == (if filter.value.archived.value then "true" else "false")
  {
    match filter
    case None => ListQuery(opts, map[])
    case Some(f) =>
      assert "archived" in Texts(f);
      ListQuery(opts, Texts(f))
  }

  /** voucherType, voucherStatus and contactId are sent exactly when not "", verbatim. */
  lemma StringFiltersVerbatim(opts: Option<ListOptions>, f: FilterOptions)
    ensures var r := ListParams(opts, Some(f));
      && ("voucherType" in r <==> f.voucherType != "")
      && ("voucherType" in r ==> r["voucherType"] == f.voucherType)
      && ("voucherStatus" in r <==> f.voucherStatus != "")
      && ("voucherStatus" in r ==> r["voucherStatus"] == f.voucherStatus)
      && ("contactId" in r <==> f.contactId != "")
      && ("contactId" in r ==> r["contactId"] == f.contactId)
  {
    var t := Texts(f);
    assert "voucherType" in t && "voucherStatus" in t && "contactId" in t;
  }

  /** The six date bounds are sent exactly when not "", verbatim. */
  lemma DateFiltersVerbatim(opts: Option<ListOptions>, f: FilterOptions)
    ensures var r := ListParams(opts, Some(f));
      && ("voucherDateFrom" in r <==> f.voucherDateFrom != "")
      && ("voucherDateFrom" in r ==> r["voucherDateFrom"] == f.voucherDateFrom)
      && ("voucherDateTo" in r <==> f.voucherDateTo != "")
      && ("voucherDateTo" in r ==> r["voucherDateTo"] == f.voucherDateTo)
      && ("createdDateFrom" in r <==> f.createdDateFrom != "")
      && ("createdDateFrom" in r ==> r["createdDateFrom"] == f.createdDateFrom)
      && ("createdDateTo" in r <==> f.createdDateTo != "")
      && ("createdDateTo" in r ==> r["createdDateTo"] == f.createdDateTo)
      && ("updatedDateFrom" in r <==> f.updatedDateFrom != "")
      && ("updatedDateFrom" in r ==> r["updatedDateFrom"] == f.updatedDateFrom)
      && ("updatedDateTo" in r <==> f.updatedDateTo != "")
      && ("updatedDateTo" in r ==> r["updatedDateTo"] == f.updatedDateTo)
  {
    var t := Texts(f);
    assert "voucherDateFrom" in t && "voucherDateTo" in t && "createdDateFrom" in t;
    assert "createdDateTo" in t && "updatedDateFrom" in t && "updatedDateTo" in t;
  }

  /** The map after List's inserts into p, one per filter field, in the source's order. */
  function Inserts(p: Params, f: FilterOptions): Params
  {
    DateInserts(RecordInserts(p, f), f)
  }

  /** The inserts of voucherType, voucherStatus, archived and contactId. */
  function RecordInserts(p: Params, f: FilterOptions): Params
  {
    var m0 := PutIf(p, f.voucherType != "", "voucherType", f.voucherType);
    var m1 := PutIf(m0, f.voucherStatus != "", "voucherStatus", f.voucherStatus);
    var m2 := PutIf(m1, ArchivedText(f.archived) != "", "archived", ArchivedText(f.archived));
    PutIf(m2, f.contactId != "", "contactId", f.contactId)
  }

  /** The inserts of the six date bounds. */
  function DateInserts(p: Params, f: FilterOptions): Params
  {
    var m0 := PutIf(p, f.voucherDateFrom != "", "voucherDateFrom", f.voucherDateFrom);
    var m1 := PutIf(m0, f.voucherDateTo != "", "voucherDateTo", f.voucherDateTo);
    var m2 := PutIf(m1, f.createdDateFrom != "", "createdDateFrom", f.createdDateFrom);
    var m3 := PutIf(m2, f.createdDateTo != "", "createdDateTo", f.createdDateTo);
    var m4 := PutIf(m3, f.updatedDateFrom != "", "updatedDateFrom", f.updatedDateFrom);
    PutIf(m4, f.updatedDateTo != "", "updatedDateTo", f.updatedDateTo)
  }

  /** The inserts, made one by one, leave p plus exactly the filled filter texts. */
  lemma InsertsFill(p: Params, f: FilterOptions)
    ensures Inserts(p, f) == p + Filled(Texts(f))
  {
    var t: map<string, string> := map[];
    assert p + Filled(t) == p;
    FilledStep(p, t, "voucherType", f.voucherType);
    t := t["voucherType" := f.voucherType];
    FilledStep(p, t, "voucherStatus", f.voucherStatus);
    t := t["voucherStatus" := f.voucherStatus];
    FilledStep(p, t, "archived", ArchivedText(f.archived));
    t := t["archived" := ArchivedText(f.archived)];
    FilledStep(p, t, "contactId", f.contactId);
    t := t["contactId" := f.contactId];
    DateInsertsFill(p, t, f);
  }

  lemma DateInsertsFill(p: Params, t: map<string, string>, f: FilterOptions)
    requires "voucherDateFrom" !in t && "voucherDateTo" !in t && "createdDateFrom" !in t
    requires "createdDateTo" !in t && "updatedDateFrom" !in t && "updatedDateTo" !in t
    ensures DateInserts(p + Filled(t), f)
         == p + Filled(t["voucherDateFrom" := f.voucherDateFrom]["voucherDateTo" := f.voucherDateTo]["createdDateFrom" := f.createdDateFrom]["createdDateTo" := f.createdDateTo]["updatedDateFrom" := f.updatedDateFrom]["updatedDateTo" := f.updatedDateTo])
  {
    var u := t;
    FilledStep(p, u, "voucherDateFrom", f.voucherDateFrom);
    u := u["voucherDateFrom" := f.voucherDateFrom];
    FilledStep(p, u, "voucherDateTo", f.voucherDateTo);
    u := u["voucherDateTo" := f.voucherDateTo];
    FilledStep(p, u, "createdDateFrom", f.createdDateFrom);
    u := u["createdDateFrom" := f.createdDateFrom];
    FilledStep(p, u, "createdDateTo", f.createdDateTo);
    u := u["createdDateTo" := f.createdDateTo];
    FilledStep(p, u, "updatedDateFrom", f.updatedDateFrom);
    u := u["updatedDateFrom" := f.updatedDateFrom];
    FilledStep(p, u, "updatedDateTo", f.updatedDateTo);
    u := u["updatedDateTo" := f.updatedDateTo];
  }

  /** The archived insert (lexware/vouchers.go:122-128): nothing for nil, else "true" or "false". */
  method SetArchived(params: ParamMap, archived: Option<bool>)
    modifies params
    ensures params.entries == PutIf(old(params.entries), ArchivedText(archived) != "", "archived", ArchivedText(archived))
  {
    if archived.Some? {
      if archived.value {
        params.Set("archived", "true");
      } else {
        params.Set("archived", "false");
      }
    }
  }

  /** The target List requests (lexware/vouchers.go:112-151), built field by field. */
  method ListTarget(opts: Option<ListOptions>, filter: Option<FilterOptions>) returns (target: string)
    ensures target == Collection + QueryString(ListParams(opts, filter))
  {
    var params := new ParamMap();
    AddPagination(params, opts);
    ghost var p := params.entries;
    if filter.Some? {
      var f := filter.value;
      params.SetIfNotEmpty("voucherType", f.voucherType);
      params.SetIfNotEmpty("voucherStatus", f.voucherStatus);
      SetArchived(params, f.archived);
      params.SetIfNotEmpty("contactId", f.contactId);
      params.SetIfNotEmpty("voucherDateFrom", f.voucherDateFrom);
      params.SetIfNotEmpty("voucherDateTo", f.voucherDateTo);
      params.SetIfNotEmpty("createdDateFrom", f.createdDateFrom);
      params.SetIfNotEmpty("createdDateTo", f.createdDateTo);
      params.SetIfNotEmpty("updatedDateFrom", f.updatedDateFrom);
      params.SetIfNotEmpty("updatedDateTo", f.updatedDateTo);
      assert params.entries == Inserts(p, f);
      InsertsFill(p, f);
    }
    var qs := BuildQueryString(params.entries);
    target := Collection + qs;
  }

  /** What the server reads from List's target: /v1/voucherlist and exactly ListParams, escaped. */
  lemma ListReadsBack(opts: Option<ListOptions>, filter: Option<FilterOptions>)
    ensures TargetPath(Collection + QueryString(ListParams(opts, filter))) == Collection
    ensures TargetParams(Collection + QueryString(ListParams(opts, filter))) == EscapeValues(ListParams(opts, filter))
  {
    match filter
    case None =>
      ListQueryReadsBack(Collection, opts, map[]);
    case Some(f) =>
      KeysPlain(f);
      ListQueryReadsBack(Collection, opts, Texts(f));
  }

  /** Every filter key is sent unescaped, and none is page or size. */
  lemma KeysPlain(f: FilterOptions)
    ensures forall k :: k in Texts(f) ==> Plain(k)
    ensures "page" !in Texts(f) && "size" !in Texts(f)
  {
    RecordKeysPlain();
    DateKeysPlain();
  }

  lemma RecordKeysPlain()
    ensures Plain("voucherType") && Plain("voucherStatus") && Plain("archived") && Plain("contactId")
  {
  }

  lemma DateKeysPlain()
    ensures Plain("voucherDateFrom") && Plain("voucherDateTo") && Plain("createdDateFrom")
    ensures Plain("createdDateTo") && Plain("updatedDateFrom") && Plain("updatedDateTo")
  {
  }

  /**
   * archived is three-valued on the wire: the server reads no archived
   * parameter for nil, and "true" or "false" for a set flag.
   */
  lemma ArchivedTriState(opts: Option<ListOptions>, f: FilterOptions)
    ensures var sent := TargetParams(Collection + QueryString(ListParams(opts, Some(f))));
            && (f.archived.None? <==> "archived" !in sent)
            && (f.archived == Some(true) ==> sent["archived"] == "true")
            && (f.archived == Some(false) ==> sent["archived"] == "false")
  {
    BoolTextsReadBack();
    ListReadsBack(opts, Some(f));
  }

  /** The route of List: a GET of /v1/voucherlist with its query, no body, through doRequest. */
  function ListRoute(opts: Option<ListOptions>, filter: Option<FilterOptions>): (r: Route)
    ensures r.verb == GET && !r.hasBody && r.accept == Json && r.shape == Buffered
    ensures TargetPath(r.target) == Collection
    ensures TargetParams(r.target) == EscapeValues(ListParams(opts, filter))
  {
    ListReadsBack(opts, filter);
    JsonRoute(GET, Collection + QueryString(ListParams(opts, filter)), false)
  }
}
