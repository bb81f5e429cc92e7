/**
 * The invoice resource (lexware/invoices.go): the sales-voucher shape on
 * /v1/invoices, with Create, Pursue, Get, RenderDocument and
 * DownloadDocument. The routes are those of SalesVouchers for the
 * Invoices kind; this module states them on the literal paths.
 */
module Invoices {
  import opened Query
  import opened Transport
  import opened SalesVouchers

  const Collection: string := "/v1/invoices"

  /** The paths of the source, as the collection followed by their fixed tails. */
  lemma PathLiterals()
    ensures Invoices.Collection() == Collection
    ensures Collection + "?finalize=true" == "/v1/invoices?finalize=true"
    ensures Collection + "?precedingSalesVoucherId=" == "/v1/invoices?precedingSalesVoucherId="
    ensures Collection + "/" == "/v1/invoices/"
  {
  }

  /** The invoice client offers every sales-voucher call except the dunning ones. */
  lemma InvoicesOffer(call: Call)
    ensures Offers(Invoices, call) <==> !call.DunningCreate? && !call.DunningPursue?
  {
  }

  /**
   * Create is POST /v1/invoices?finalize=true when finalize is set and POST
   * /v1/invoices otherwise, with the invoice as JSON body; the server
   * reads finalize=true, or no parameter at all.
   */
  lemma CreateRoute(finalize: bool)
    ensures RouteOf(Invoices, Create(finalize))
         == JsonRoute(POST, if finalize then "/v1/invoices?finalize=true" else "/v1/invoices", true)
    ensures finalize ==> TargetParams(RouteOf(Invoices, Create(finalize)).target) == map["finalize" := "true"]
    ensures !finalize ==> TargetParams(RouteOf(Invoices, Create(finalize)).target) == map[]
  {
    PathLiterals();
  }

  /**
   * Pursue is POST /v1/invoices?precedingSalesVoucherId=<id>, followed by
   * &finalize=true exactly when finalize is set.
   */
  lemma PursueRoute(preceding: string, finalize: bool)
    ensures RouteOf(Invoices, Pursue(preceding, finalize))
         == JsonRoute(POST, "/v1/invoices?precedingSalesVoucherId=" + preceding + (if finalize then "&finalize=true" else ""), true)
  {
    PathLiterals();
  }

  /** The server reads Pursue's preceding id back verbatim, and finalize exactly when it was asked for. */
  lemma PursueReadsBack(preceding: string, finalize: bool)
    requires '&' !in preceding && '#' !in preceding
    ensures var sent := TargetParams(RouteOf(Invoices, Pursue(preceding, finalize)).target);
            && PrecedingKey in sent && sent[PrecedingKey] == preceding
            && ("finalize" in sent <==> finalize)
  {
    var sent := TargetParams(RouteOf(Invoices, Pursue(preceding, finalize)).target);
    assert sent == FinalizeParams(finalize)[PrecedingKey := preceding];
    assert |"finalize"| != |PrecedingKey|;
  }

  /** Get is GET /v1/invoices/{id} with no body; the server reads no parameter for an id without '?'. */
  lemma GetRoute(id: string)
    ensures RouteOf(Invoices, Get(id)) == JsonRoute(GET, "/v1/invoices/" + id, false)
    ensures '?' !in id ==> TargetParams(RouteOf(Invoices, Get(id)).target) == map[]
  {
    PathLiterals();
  }

  /**
   * RenderDocument and DownloadDocument both address
   * /v1/invoices/{id}/document; only the download asks for a PDF, and only
   * the download goes through the 200-only check.
   */
  lemma DocumentRoutes(id: string)
    ensures RouteOf(Invoices, RenderDocument(id)) == JsonRoute(GET, "/v1/invoices/" + id + "/document", false)
    ensures RouteOf(Invoices, DownloadDocument(id)) == DownloadRoute("/v1/invoices/" + id + "/document", Pdf)
  {
    PathLiterals();
  }

  /** A download answered 201 or 204 is an APIError, though doRequest would take either as success. */
  lemma DownloadRejectsOther2xx(c: Client, id: string, payload: Payload, send: Transport, status: int, body: Readable)
    requires status == 201 || status == 204
    requires send(HttpRequest("GET", c.baseURL + DocumentPath(Invoices, id),
                              map["Authorization" := "Bearer " + c.apiKey, "Accept" := Pdf], NoBody)) == Response(status, body)
    ensures Execute(c, RouteOf(Invoices, DownloadDocument(id)), payload, send) == ApiErr(ApiError(status, body.Text()))
  {
    DownloadOnly200(c, Invoices, id, payload, send);
  }
}
