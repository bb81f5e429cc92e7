/**
 * The sales-voucher resources (lexware/sales_vouchers.go): quotations,
 * credit notes, delivery notes, dunnings, order confirmations and
 * down-payment invoices, with invoices (lexware/invoices.go) sharing the
 * same shape. Each offers a subset of Create (with finalize), Pursue
 * (from a preceding voucher), Get, RenderDocument and DownloadDocument.
 */
module SalesVouchers {
  import opened Text
  import opened Query
  import opened Transport

  /** One client per collection. */
  datatype Kind = Quotations | CreditNotes | DeliveryNotes | Dunnings | OrderConfirmations | DownPaymentInvoices | Invoices {
    function Collection(): (p: string)
      ensures '?' !in p && '#' !in p
    {
      match this
      case Quotations => "/v1/quotations"
      case CreditNotes => "/v1/credit-notes"
      case DeliveryNotes => "/v1/delivery-notes"
      case Dunnings => "/v1/dunnings"
      case OrderConfirmations => "/v1/order-confirmations"
      case DownPaymentInvoices => "/v1/down-payment-invoices"
      case Invoices => "/v1/invoices"
    }
  }

  /** The calls, with the arguments that shape the request (the JSON body is the payload). */
  datatype Call =
    | Create(finalize: bool)
    | Pursue(preceding: string, finalize: bool)
    | DunningCreate(preceding: string)
    | DunningPursue(preceding: string)
    | Get(id: string)
    | RenderDocument(id: string)
    | DownloadDocument(id: string)
  {
    /** The calls that POST a new voucher. */
    predicate Posts()
    {
      Create? || Pursue? || DunningCreate? || DunningPursue?
    }
  }

  const Pdf: string := "application/pdf"
  const PrecedingKey: string := "precedingSalesVoucherId"

  /** The literal query pieces of the source, split at their delimiters. */
  lemma QueryLiterals()
    ensures "?finalize=true" == "?" + "finalize" + "=" + "true"
    ensures "&finalize=true" == "&" + "finalize" + "=" + "true"
    ensures "?precedingSalesVoucherId=" == "?" + (PrecedingKey + "=")
  {
  }

  /** The keys and the value the source writes by hand are plain text. */
  lemma QueryWordsPlain()
    ensures Plain("finalize") && Plain("true") && Plain(PrecedingKey)
    ensures '&' !in "true"
    ensures '#' !in "finalize" && '#' !in "true" && '#' !in PrecedingKey
  {
    PlainDelimitsNothing("finalize");
    PlainDelimitsNothing("true");
  }

  /**
   * Which client has which method: dunnings create only from a preceding
   * voucher and have no finalize flag; down-payment invoices can only be
   * read and downloaded; quotations cannot be pursued.
   */
  predicate Offers(kind: Kind, call: Call)
  {
    match call
    case Create(_) => kind != Dunnings && kind != DownPaymentInvoices
    case Pursue(_, _) => kind in {CreditNotes, DeliveryNotes, OrderConfirmations, Invoices}
    case DunningCreate(_) => kind == Dunnings
    case DunningPursue(_) => kind == Dunnings
    case Get(_) => true
    case RenderDocument(_) => kind != DownPaymentInvoices
    case DownloadDocument(_) => true
  }

  /** The parameters finalize adds: finalize=true when set, nothing otherwise. */
  function FinalizeParams(finalize: bool): Params
  {
    if finalize then map["finalize" := "true"] else map[]
  }

  /** The path Create posts to. */
  function CreateTarget(kind: Kind, finalize: bool): string
  {
    kind.Collection() + (if finalize then "?finalize=true" else "")
  }

  /** The path Pursue posts to; the preceding id is pasted in as given. */
  function PursueTarget(kind: Kind, preceding: string, finalize: bool): string
  {
    kind.Collection() + "?precedingSalesVoucherId=" + preceding + (if finalize then "&finalize=true" else "")
  }

  /** The path of a voucher's rendered document. */
  function DocumentPath(kind: Kind, id: string): string
  {
    kind.Collection() + "/" + id + "/document"
  }

  /** Create's path, built as the source builds it: the collection, then `+= "?finalize=true"` when asked. */
  method CreatePath(kind: Kind, finalize: bool) returns (path: string)
    ensures path == CreateTarget(kind, finalize)
    ensures TargetPath(path) == kind.Collection()
    ensures TargetParams(path) == FinalizeParams(finalize)
  {
    path := kind.Collection();
    if finalize {
      path := path + "?finalize=true";
    }
    CreateReadsBack(kind, finalize);
  }

  /** Pursue's path, built as the source builds it: the preceding id, then `+= "&finalize=true"` when asked. */
  method PursuePath(kind: Kind, preceding: string, finalize: bool) returns (path: string)
    ensures path == PursueTarget(kind, preceding, finalize)
    ensures '&' !in preceding && '#' !in preceding ==> TargetPath(path) == kind.Collection()
    ensures '&' !in preceding && '#' !in preceding ==> TargetParams(path) == FinalizeParams(finalize)[PrecedingKey := preceding]
  {
    path := kind.Collection() + "?precedingSalesVoucherId=" + preceding;
    if finalize {
      path := path + "&finalize=true";
    }
    if '&' !in preceding && '#' !in preceding {
      PursueReadsBack(kind, preceding, finalize);
    }
  }

  /** The server reads Create's target as the collection, with finalize=true exactly when finalize is set. */
  lemma CreateReadsBack(kind: Kind, finalize: bool)
    ensures TargetPath(CreateTarget(kind, finalize)) == kind.Collection()
    ensures TargetParams(CreateTarget(kind, finalize)) == FinalizeParams(finalize)
  {
    var col := kind.Collection();
    if finalize {
      QueryLiterals();
      QueryWordsPlain();
      var q := "finalize" + "=" + "true";
      assert CreateTarget(kind, finalize) == col + "?" + q;
      TargetOfQuery(col, q);
      ParseOnePair("finalize", "true");
      PairsToMapShort(("finalize", "true"), ("finalize", "true"));
    } else {
      PlainTarget(col);
    }
  }

  /** Pursue's query: everything after the '?'. */
  function PursueQuery(preceding: string, finalize: bool): string
  {
    PrecedingKey + "=" + preceding + (if finalize then "&finalize=true" else "")
  }

  lemma PursueTargetSplits(kind: Kind, preceding: string, finalize: bool)
    ensures PursueTarget(kind, preceding, finalize) == kind.Collection() + "?" + PursueQuery(preceding, finalize)
  {
    QueryLiterals();
    var x := if finalize then "&finalize=true" else "";
    Regroup(kind.Collection(), "?", PrecedingKey + "=", preceding, x);
  }

  /** Concatenation regrouped: the head, the separator, and the rest in one piece. */
  lemma Regroup(a: string, b: string, c: string, d: string, e: string)
    ensures a + (b + c) + d + e == a + b + (c + d + e)
  {
  }

  /** Concatenation regrouped: the head, the separator, and the rest in one piece. */
  lemma Regroup4(a: string, b: string, c: string, d: string)
    ensures a + (b + c) + d == a + b + (c + d)
  {
  }

  /** Concatenation regrouped: a tail written in one piece, spelt out. */
  lemma Spell(a: string, b: string, c: string, d: string, e: string)
    ensures a + (b + c + d + e) == a + b + c + d + e
  {
  }

  lemma PursueQueryParses(preceding: string, finalize: bool)
    requires '&' !in preceding
    ensures PairsToMap(ParseQuery(PursueQuery(preceding, finalize))) == FinalizeParams(finalize)[PrecedingKey := preceding]
  {
    QueryWordsPlain();
    if finalize {
      QueryLiterals();
      Spell(PrecedingKey + "=" + preceding, "&", "finalize", "=", "true");
      ParseTwoPairs(PrecedingKey, preceding, "finalize", "true");
    } else {
      assert PursueQuery(preceding, false) == PrecedingKey + "=" + preceding;
      ParseOnePair(PrecedingKey, preceding);
    }
    PairsToMapShort((PrecedingKey, preceding), ("finalize", "true"));
  }

  /**
   * The server reads Pursue's target as the collection with
   * precedingSalesVoucherId = the id, and finalize=true exactly when
   * finalize is set, provided the id holds no '&'.
   */
  lemma PursueReadsBack(kind: Kind, preceding: string, finalize: bool)
    requires '&' !in preceding && '#' !in preceding
    ensures TargetPath(PursueTarget(kind, preceding, finalize)) == kind.Collection()
    ensures TargetParams(PursueTarget(kind, preceding, finalize)) == FinalizeParams(finalize)[PrecedingKey := preceding]
  {
    PursueTargetSplits(kind, preceding, finalize);
    TargetOfQuery(kind.Collection(), PursueQuery(preceding, finalize));
    PursueQueryParses(preceding, finalize);
  }

  /** The id goes in unescaped: an id carrying "&finalize=true" finalizes a voucher the caller did not ask to finalize. */
  lemma UnescapedIdCanFinalize(kind: Kind)
    ensures var sent := TargetParams(PursueTarget(kind, "x&finalize=true", false));
            "finalize" in sent && sent["finalize"] == "true"
  {
    var head := kind.Collection() + "?precedingSalesVoucherId=";
    assert "x&finalize=true" == "x" + "&finalize=true";
    assert PursueTarget(kind, "x&finalize=true", false) == head + "x&finalize=true" + "";
    assert head + ("x" + "&finalize=true") + "" == head + "x" + "&finalize=true";
    assert PursueTarget(kind, "x&finalize=true", false) == PursueTarget(kind, "x", true);
    PursueReadsBack(kind, "x", true);
  }

  /** The text before a Pursue id holds no '#', so only the id can start a fragment. */
  lemma PursueHead(kind: Kind)
    ensures '#' !in kind.Collection() + "?precedingSalesVoucherId="
  {
    QueryLiterals();
    QueryWordsPlain();
  }

  /**
   * Nor is the id escaped against '#': url.Parse cuts the target at the
   * id's first '#', so the server reads only the id's head, and a requested
   * finalize never arrives.
   */
  lemma FragmentDropsFinalize(kind: Kind, preceding: string, finalize: bool)
    requires '#' in preceding && '&' !in Cut(preceding, '#').0
    ensures TargetPath(PursueTarget(kind, preceding, finalize)) == kind.Collection()
    ensures TargetParams(PursueTarget(kind, preceding, finalize)) == map[PrecedingKey := Cut(preceding, '#').0]
  {
    var head := kind.Collection() + "?precedingSalesVoucherId=";
    var tail := if finalize then "&finalize=true" else "";
    var target := PursueTarget(kind, preceding, finalize);
    var id := Cut(preceding, '#').0;
    PursueHead(kind);
    assert target == head + (preceding + tail);
    assert Sent(preceding) == id;
    SentBefore(preceding, tail);
    SentPast(head, preceding + tail);
    assert PursueTarget(kind, id, false) == head + id + "";
    assert Sent(target) == PursueTarget(kind, id, false);
    SentOnly(target);
    PursueReadsBack(kind, id, false);
    assert FinalizeParams(false)[PrecedingKey := id] == map[PrecedingKey := id];
  }

  /** Pursue with finalize set and the id "x#y": the server reads the id "x" and no finalize. */
  lemma FragmentLosesFinalize(kind: Kind)
    ensures var sent := TargetParams(PursueTarget(kind, "x#y", true));
            "finalize" !in sent && PrecedingKey in sent && sent[PrecedingKey] == "x"
  {
    var id := "x#y";
    assert id == "x" + ['#'] + "y";
    CutAt("x", "y", '#');
    FragmentDropsFinalize(kind, id, true);
    assert |"finalize"| != |PrecedingKey|;
  }

  /** The path dunning Create posts to: always the preceding voucher, never finalize. */
  function DunningTarget(preceding: string): string
  {
    "/v1/dunnings?precedingSalesVoucherId=" + preceding
  }

  /** The dunning path of the source, as the collection followed by its query head. */
  lemma DunningLiteral()
    ensures "/v1/dunnings?precedingSalesVoucherId=" == Dunnings.Collection() + "?precedingSalesVoucherId="
  {
  }

  /**
   * The dunning counterpart: a preceding id that carries "&finalize=true"
   * makes the server read a finalize flag that dunning Create never sends.
   */
  lemma UnescapedDunningIdCanFinalize()
    ensures var sent := TargetParams(DunningTarget("x&finalize=true"));
            "finalize" in sent && sent["finalize"] == "true"
  {
    DunningLiteral();
    assert DunningTarget("x&finalize=true") == PursueTarget(Dunnings, "x&finalize=true", false);
    UnescapedIdCanFinalize(Dunnings);
  }

  /** The server reads a dunning's target as /v1/dunnings with the preceding voucher and nothing else. */
  lemma DunningReadsBack(preceding: string)
    requires '&' !in preceding && '#' !in preceding
    ensures TargetPath(DunningTarget(preceding)) == Dunnings.Collection()
    ensures TargetParams(DunningTarget(preceding)) == map[PrecedingKey := preceding]
  {
    QueryLiterals();
    QueryWordsPlain();
    DunningLiteral();
    var col := Dunnings.Collection();
    var q := PrecedingKey + "=" + preceding;
    Regroup4(col, "?", PrecedingKey + "=", preceding);
    TargetOfQuery(col, q);
    ParseOnePair(PrecedingKey, preceding);
    PairsToMapShort((PrecedingKey, preceding), ("finalize", "true"));
  }

  /** A dunning's id cut at its first '#': the server reads only the id's head. */
  lemma DunningFragment(preceding: string)
    requires '#' in preceding && '&' !in Cut(preceding, '#').0
    ensures TargetPath(DunningTarget(preceding)) == Dunnings.Collection()
    ensures TargetParams(DunningTarget(preceding)) == map[PrecedingKey := Cut(preceding, '#').0]
  {
    var head := "/v1/dunnings?precedingSalesVoucherId=";
    var id := Cut(preceding, '#').0;
    DunningLiteral();
    PursueHead(Dunnings);
    SentPast(head, preceding);
    assert Sent(DunningTarget(preceding)) == DunningTarget(id);
    SentOnly(DunningTarget(preceding));
    DunningReadsBack(id);
  }

  function RouteOf(kind: Kind, call: Call): (r: Route)
    requires Offers(kind, call)
    ensures r.verb == POST <==> call.Posts()
    ensures r.verb == POST || r.verb == GET
    ensures r.hasBody <==> call.Posts()
    ensures r.shape == Download <==> call.DownloadDocument?
    ensures r.accept == (if call.DownloadDocument? then Pdf else Json)
    ensures call.Create? ==> r.target == CreateTarget(kind, call.finalize)
    ensures call.Create? ==>
              TargetPath(r.target) == kind.Collection() && TargetParams(r.target) == FinalizeParams(call.finalize)
    ensures call.Pursue? ==> r.target == PursueTarget(kind, call.preceding, call.finalize)
    ensures call.Pursue? && '&' !in call.preceding && '#' !in call.preceding ==>
              && TargetPath(r.target) == kind.Collection()
              && TargetParams(r.target) == FinalizeParams(call.finalize)[PrecedingKey := call.preceding]
    ensures call.Pursue? && '#' in call.preceding && '&' !in Cut(call.preceding, '#').0 ==>
              && TargetPath(r.target) == kind.Collection()
              && TargetParams(r.target) == map[PrecedingKey := Cut(call.preceding, '#').0]
    ensures (call.DunningCreate? || call.DunningPursue?) ==> r.target == DunningTarget(call.preceding)
    ensures (call.DunningCreate? || call.DunningPursue?) && '&' !in call.preceding && '#' !in call.preceding ==>
              TargetPath(r.target) == kind.Collection() && TargetParams(r.target) == map[PrecedingKey := call.preceding]
    ensures call.Get? ==> r.target == kind.Collection() + "/" + call.id
    ensures call.Get? && '?' !in call.id ==>
              TargetPath(r.target) == kind.Collection() + "/" + Cut(call.id, '#').0 && TargetParams(r.target) == map[]
    ensures (call.RenderDocument? || call.DownloadDocument?) ==> r.target == DocumentPath(kind, call.id)
  {
    match call
    case Create(finalize) =>
      CreateReadsBack(kind, finalize);
      JsonRoute(POST, CreateTarget(kind, finalize), true)
    case Pursue(preceding, finalize) =>
      if '&' !in preceding && '#' !in preceding then PursueReadsBack(kind, preceding, finalize); JsonRoute(POST, PursueTarget(kind, preceding, finalize), true)
      else if '#' in preceding && '&' !in Cut(preceding, '#').0 then FragmentDropsFinalize(kind, preceding, finalize); JsonRoute(POST, PursueTarget(kind, preceding, finalize), true)
      else JsonRoute(POST, PursueTarget(kind, preceding, finalize), true)
    case DunningCreate(preceding) =>
      DunningRoute(preceding)
    case DunningPursue(preceding) =>
      DunningRoute(preceding)
    case Get(id) =>
      ItemReadsBack(kind.Collection(), id);
      JsonRoute(GET, kind.Collection() + "/" + id, false)
    case RenderDocument(id) =>
      JsonRoute(GET, DocumentPath(kind, id), false)
    case DownloadDocument(id) =>
      DownloadRoute(DocumentPath(kind, id), Pdf)
  }

  /** Dunning Create's route; Pursue delegates to Create and so shares it. */
  function DunningRoute(preceding: string): (r: Route)
    ensures r.verb == POST && r.hasBody && r.accept == Json && r.shape == Buffered
    ensures r.target == DunningTarget(preceding)
    ensures '&' !in preceding && '#' !in preceding ==>
              TargetPath(r.target) == Dunnings.Collection() && TargetParams(r.target) == map[PrecedingKey := preceding]
    ensures '#' in preceding && '&' !in Cut(preceding, '#').0 ==>
              TargetPath(r.target) == Dunnings.Collection() && TargetParams(r.target) == map[PrecedingKey := Cut(preceding, '#').0]
  {
    if '&' !in preceding && '#' !in preceding then DunningReadsBack(preceding); JsonRoute(POST, DunningTarget(preceding), true)
    else if '#' in preceding && '&' !in Cut(preceding, '#').0 then DunningFragment(preceding); JsonRoute(POST, DunningTarget(preceding), true)
    else JsonRoute(POST, DunningTarget(preceding), true)
  }

  /** Dunning Pursue returns exactly what Create returns, for every reply the server could give. */
  lemma DunningPursueIsCreate(c: Client, preceding: string, payload: Payload, send: Transport)
    ensures Execute(c, RouteOf(Dunnings, DunningPursue(preceding)), payload, send)
         == Execute(c, RouteOf(Dunnings, DunningCreate(preceding)), payload, send)
  {
  }

  /**
   * RenderDocument GETs the /document path through doRequest, drops the
   * body and fails exactly when doRequest fails, with doRequest's error.
   */
  lemma RenderFailsIffRequestFails(c: Client, kind: Kind, id: string, send: Transport)
    requires Offers(kind, RenderDocument(id))
    ensures var o := ErrorOnly(Execute(c, RouteOf(kind, RenderDocument(id)), Absent, send));
            var d := DoRequest(c, "GET", DocumentPath(kind, id), Absent, send);
            && (o.Ok? <==> d.Ok?)
            && (d.ApiErr? ==> o == ApiErr(d.err))
            && (d.LocalErr? ==> o == LocalErr(d.cause))
  {
  }

  /**
   * DownloadDocument sends a body-less GET of the /document path with only
   * the bearer key and Accept: application/pdf, and hands back the body
   * only on status 200; every other status becomes APIError.
   */
  lemma DownloadOnly200(c: Client, kind: Kind, id: string, payload: Payload, send: Transport)
    ensures var req := HttpRequest("GET", c.baseURL + DocumentPath(kind, id),
                                   map["Authorization" := "Bearer " + c.apiKey, "Accept" := Pdf], NoBody);
            var reply := send(req);
            var o := Execute(c, RouteOf(kind, DownloadDocument(id)), payload, send);
            && (o.Ok? <==> reply.Response? && reply.status == 200)
            && (o.Ok? ==> o.value == reply.body)
            && (reply.Response? && reply.status != 200 ==> o == ApiErr(ApiError(reply.status, reply.body.Text())))
  {
    assert RawHeaders(c.apiKey, map["Accept" := Pdf]) == map["Authorization" := "Bearer " + c.apiKey, "Accept" := Pdf];
  }

  /** Render and Download of one voucher address the same document. */
  lemma RenderAndDownloadShareTarget(kind: Kind, id: string)
    requires Offers(kind, RenderDocument(id))
    ensures RouteOf(kind, RenderDocument(id)).target == RouteOf(kind, DownloadDocument(id)).target
    ensures RouteOf(kind, RenderDocument(id)).accept == Json && RouteOf(kind, DownloadDocument(id)).accept == Pdf
  {
  }

  /** Down-payment invoices can be read and downloaded and nothing else. */
  lemma DownPaymentInvoicesReadOnly(call: Call)
    ensures Offers(DownPaymentInvoices, call) <==> call.Get? || call.DownloadDocument?
  {
  }
}
