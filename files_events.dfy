/**
 * The files resource (filesClient in lexware/files_events.go): Upload of a
 * multipart form to /v1/files, and Download of a stored file.
 */
module Files {
  import opened Text
  import opened Query
  import opened Transport

  const Collection: string := "/v1/files"
  const OctetStream: string := "application/octet-stream"

  /** types.FileUploadTypeVoucher, the one upload type the library names. */
  const VoucherUpload: string := "voucher"

  /**
   * Upload (lexware/files_events.go:17-57): the content is copied into a
   * form whose part "file" comes first and whose field "type" follows (a
   * failing read of the content stops the call); the form is POSTed to
   * /v1/files with the bearer key, the multipart Content-Type and a JSON
   * Accept; the reply body is read in full before the status is looked at,
   * a status outside [200,300) gives APIError, and a 2xx body is decoded.
   */
  method Upload<T>(c: Client, filename: string, content: Readable, fileType: string, boundary: string,
                   send: Transport, decode: string -> Option<T>)
    returns (o: Outcome<T>)
    ensures content.FailsAfter? <==> o == LocalErr(CopyFailed)
    ensures content.Complete? ==>
              o == Unmarshal(Classify(send(MultipartRequest(c, Collection, UploadForm(filename, content.text, fileType), boundary))), decode)
  {
    var parts: seq<FormPart> := [];
    if content.FailsAfter? {
      return LocalErr(CopyFailed);
    }
    parts := parts + [FilePart("file", filename, content.text)];
    parts := parts + [FieldPart("type", fileType)];
    assert parts == UploadForm(filename, content.text, fileType);
    var req := MultipartRequest(c, Collection, parts, boundary);
    var reply := send(req);
    if reply.TransportFailed? {
      return LocalErr(ExecuteFailed);
    }
    if reply.body.FailsAfter? {
      return LocalErr(ReadFailed);
    }
    if reply.status < 200 || reply.status >= 300 {
      return ApiErr(ApiError(reply.status, reply.body.text));
    }
    match decode(reply.body.text)
    case None => return LocalErr(UnmarshalFailed);
    case Some(v) => return Ok(v);
  }

  /** The form Upload writes: the file part named "file", then the field "type". */
  function UploadForm(filename: string, content: string, fileType: string): (parts: seq<FormPart>)
    ensures |parts| == 2
    ensures parts[0].FilePart? && parts[0].field == "file" && parts[0].filename == filename && parts[0].content == content
    ensures parts[1].FieldPart? && parts[1].field == "type" && parts[1].value == fileType
  {
    [FilePart("file", filename, content), FieldPart("type", fileType)]
  }

  /**
   * Unlike the voucher file upload, Upload reads the reply body before it
   * looks at the status: a body that fails to read fails the call whatever
   * the status, 2xx included.
   */
  lemma UploadReadsBodyFirst<T>(status: int, prefix: string, decode: string -> Option<T>)
    ensures Unmarshal(Classify(Response(status, FailsAfter(prefix))), decode) == LocalErr(ReadFailed)
    ensures IsSuccess(status) ==> ClassifyStatus(Response(status, FailsAfter(prefix))).Ok?
  {
  }

  /** The status rule of Upload: a complete body with a non-2xx status is APIError{status, body}, never decoded. */
  lemma UploadStatusRule<T>(status: int, text: string, decode: string -> Option<T>)
    ensures !IsSuccess(status) ==> Unmarshal(Classify(Response(status, Complete(text))), decode) == ApiErr(ApiError(status, text))
    ensures IsSuccess(status) ==>
              Unmarshal(Classify(Response(status, Complete(text))), decode)
              == (if decode(text).Some? then Ok(decode(text).value) else LocalErr(UnmarshalFailed))
  {
  }

  /** The route of Download: a body-less GET of /v1/files/{id} through doRequestRaw, asking for an octet stream. */
  function DownloadRouteOf(id: string): (r: Route)
    ensures r.verb == GET && !r.hasBody && r.shape == Download && r.accept == OctetStream
    ensures r.target == Collection + "/" + id
    ensures '?' !in id ==> TargetPath(r.target) == Collection + "/" + Cut(id, '#').0 && TargetParams(r.target) == map[]
  {
    ItemReadsBack(Collection, id);
    DownloadRoute(Collection + "/" + id, OctetStream)
  }

  /**
   * Download sends only the bearer key and Accept: application/octet-stream,
   * and hands back the body only on status 200; any other status, 2xx
   * included, becomes APIError{status, body}.
   */
  lemma DownloadOnly200(c: Client, id: string, payload: Payload, send: Transport)
    ensures var req := HttpRequest("GET", c.baseURL + (Collection + "/" + id),
                                   map["Authorization" := "Bearer " + c.apiKey, "Accept" := OctetStream], NoBody);
            var reply := send(req);
            var o := Execute(c, DownloadRouteOf(id), payload, send);
            && (o.Ok? <==> reply.Response? && reply.status == 200)
            && (o.Ok? ==> o.value == reply.body)
            && (reply.Response? && reply.status != 200 ==> o == ApiErr(ApiError(reply.status, reply.body.Text())))
  {
    assert RawHeaders(c.apiKey, map["Accept" := OctetStream]) == map["Authorization" := "Bearer " + c.apiKey, "Accept" := OctetStream];
  }
}

/**
 * The event subscriptions (eventSubscriptionsClient in
 * lexware/files_events.go): Create, Get, List and Delete on
 * /v1/event-subscriptions.
 */
module Events {
  import opened Text
  import opened Query
  import opened Transport

  const Collection: string := "/v1/event-subscriptions"

  datatype Call = Create | Get(id: string) | List | Delete(id: string)

  /** The object List decodes: only its "content" member is kept. */
  datatype Envelope<T> = Envelope(content: seq<T>)

  lemma CollectionDelimitsNothing()
    ensures '?' !in Collection && '#' !in Collection
  {
  }

  /**
   * The route of each call: Create POSTs a body to the collection; Get and
   * Delete send no body to /v1/event-subscriptions/{id}; List GETs the
   * collection with no query. All go through doRequest.
   */
  function RouteOf(call: Call): (r: Route)
    ensures r.accept == Json && r.shape == Buffered
    ensures r.hasBody <==> call.Create?
    ensures r.verb == POST <==> call.Create?
    ensures r.verb == DELETE <==> call.Delete?
    ensures r.verb == GET <==> call.Get? || call.List?
    ensures (call.Create? || call.List?) ==> r.target == Collection && TargetParams(r.target) == map[]
    ensures (call.Get? || call.Delete?) ==> r.target == Collection + "/" + call.id
    ensures (call.Get? || call.Delete?) && '?' !in call.id ==>
              TargetPath(r.target) == Collection + "/" + Cut(call.id, '#').0 && TargetParams(r.target) == map[]
  {
    CollectionDelimitsNothing();
    PlainTarget(Collection);
    match call
    case Create => JsonRoute(POST, Collection, true)
    case List => JsonRoute(GET, Collection, false)
    case Get(id) =>
      ItemReadsBack(Collection, id);
      JsonRoute(GET, Collection + "/" + id, false)
    case Delete(id) =>
      ItemReadsBack(Collection, id);
      JsonRoute(DELETE, Collection + "/" + id, false)
  }

  /**
   * List's result: the decoded envelope's content, unwrapped, with no
   * paging information; errors of the request or the decoding pass
   * through unchanged.
   */
  function ListResult<T>(o: Outcome<string>, decode: string -> Option<Envelope<T>>): (r: Outcome<seq<T>>)
    ensures r.Ok? <==> o.Ok? && decode(o.value).Some?
    ensures r.Ok? ==> r.value == decode(o.value).value.content
    ensures !r.Ok? ==> r == ErrorOf(Unmarshal(o, decode))
  {
    match Unmarshal(o, decode)
    case Ok(envelope) => Ok(envelope.content)
    case ApiErr(e) => ApiErr(e)
    case LocalErr(e) => LocalErr(e)
  }

  /** A failed outcome, retyped. */
  function ErrorOf<T, U>(o: Outcome<T>): Outcome<U>
    requires !o.Ok?
  {
    match o
    case ApiErr(e) => ApiErr(e)
    case LocalErr(e) => LocalErr(e)
  }

  /**
   * Delete (lexware/files_events.go:112-115) sends a body-less DELETE,
   * drops the reply body, and fails exactly when doRequest fails.
   */
  lemma DeleteFailsIffRequestFails(c: Client, id: string, send: Transport)
    ensures var o := ErrorOnly(Execute(c, RouteOf(Delete(id)), Absent, send));
            var d := DoRequest(c, "DELETE", Collection + "/" + id, Absent, send);
            && (o.Ok? <==> d.Ok?)
            && (d.ApiErr? ==> o == ApiErr(d.err))
            && (d.LocalErr? ==> o == LocalErr(d.cause))
  {
  }
}
