/**
 * The whole client as one table: every resource call that goes through
 * doRequest or doRequestRaw, mapped to its route (verb, target, Accept,
 * whether a body goes along, how the reply is read). The two multipart
 * uploads send their own requests and are modelled in Vouchers and Files.
 */
module Api {
  import opened Text
  import opened Query
  import opened Transport
  import Articles
  import Contacts
  import Vouchers
  import VoucherList
  import SalesVouchers
  import Misc
  import Files
  import Events

  datatype Operation =
    | Article(a: Articles.Call)
    | Contact(c: Contacts.Call)
    | Voucher(v: Vouchers.Call)
    | VoucherListing(opts: Option<ListOptions>, filter: Option<VoucherList.FilterOptions>)
    | Sales(kind: SalesVouchers.Kind, s: SalesVouchers.Call)
    | Other(m: Misc.Call)
    | FileDownload(id: string)
    | Event(e: Events.Call)

  /** The operations the library has: a sales call only on a client that offers it. */
  predicate Exists(op: Operation)
  {
    op.Sales? ==> SalesVouchers.Offers(op.kind, op.s)
  }

  function Table(op: Operation): Route
    requires Exists(op)
  {
    match op
    case Article(a) => Articles.RouteOf(a)
    case Contact(c) => Contacts.RouteOf(c)
    case Voucher(v) => Vouchers.RouteOf(v)
    case VoucherListing(opts, filter) => VoucherList.ListRoute(opts, filter)
    case Sales(kind, s) => SalesVouchers.RouteOf(kind, s)
    case Other(m) => Misc.RouteOf(m)
    case FileDownload(id) => Files.DownloadRouteOf(id)
    case Event(e) => Events.RouteOf(e)
  }

  /** The two downloads of the library: sales documents as PDF, stored files as octet streams. */
  predicate IsDownload(op: Operation)
  {
    op.FileDownload? || (op.Sales? && op.s.DownloadDocument?)
  }

  /**
   * Across the whole table: a body goes along exactly on POST and PUT;
   * GET and DELETE never carry one; the downloads, and only they, go
   * through doRequestRaw, as body-less GETs asking for a non-JSON type;
   * every other call asks for JSON.
   */
  lemma TableShape(op: Operation)
    requires Exists(op)
    ensures var r := Table(op);
            && (r.hasBody <==> r.verb == POST || r.verb == PUT)
            && (r.shape == Download <==> IsDownload(op))
            && (r.shape == Download ==> r.verb == GET && !r.hasBody && r.accept != Json)
            && (r.shape == Buffered ==> r.accept == Json)
  {
    match op
    case Sales(kind, s) =>
      assert SalesVouchers.Pdf != Json by { assert |SalesVouchers.Pdf| != |Json|; }
    case FileDownload(id) =>
      assert Files.OctetStream != Json by { assert |Files.OctetStream| != |Json|; }
    case _ =>
  }

  /** Only the vouchers' and contacts' Update use PUT, and only articles and event subscriptions can be deleted. */
  lemma VerbsByResource(op: Operation)
    requires Exists(op)
    ensures Table(op).verb == PUT <==> (op.Article? && op.a.Update?) || (op.Contact? && op.c.Update?) || (op.Voucher? && op.v.Update?)
    ensures Table(op).verb == DELETE <==> (op.Article? && op.a.Delete?) || (op.Event? && op.e.Delete?)
  {
  }

  /**
   * The status rule of the whole table: a download succeeds only on 200;
   * any other call succeeds exactly on a status in [200,300) with a fully
   * read body; and a reply outside [200,300) whose body reads in full is
   * APIError with that status and that body, whatever the call.
   */
  lemma TableStatusRule(c: Client, op: Operation, payload: Payload, send: Transport)
    requires Exists(op)
    requires Table(op).hasBody ==> !payload.Unmarshallable?
    ensures var r := Table(op);
            var req := Prepare(c, r, payload);
            && req.Success?
            && var reply := send(req.value);
               var o := Execute(c, r, payload, send);
               && (IsDownload(op) ==> (o.Ok? <==> reply.Response? && reply.status == 200))
               && (!IsDownload(op) ==> (o.Ok? <==> reply.Response? && reply.body.Complete? && IsSuccess(reply.status)))
               && (reply.Response? && reply.body.Complete? && !IsSuccess(reply.status) ==>
                     o == ApiErr(ApiError(reply.status, reply.body.text)))
  {
    var r := Table(op);
    TableShape(op);
    PreparedRequest(c, r, payload);
    var reply := send(Prepare(c, r, payload).value);
    if reply.Response? && reply.body.Complete? && !IsSuccess(reply.status) {
      NonSuccessIsApiError(c, r, payload, send);
    }
  }
}
