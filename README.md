# lexware-go request shaping, in Dafny

A model of the request-shaping and response-classification layer of the
Go client for the Lexware Office REST API. It covers:

- **Construction.** `NewClientWithConfig` and `NewClient` refuse an empty API key, default the base URL to `https://api.lexware.io`, and default the timeout to 30 seconds when no HTTP client is supplied.
- **Query strings.** `buildQueryString` drops empty values, sorts the keys, escapes keys and values as Go's `url.QueryEscape` does, and prefixes the result with `?`. `addPagination` fills the caller's map in place.
- **List filters.** Every `List` method turns its filter struct into a parameter map through a chain of conditional inserts. The voucher list's `archived` filter is three-valued.
- **Paths.** Each resource method has a verb and a path: items by id, `?finalize=true`, `?precedingSalesVoucherId=<id>[&finalize=true]`, and `/document` for rendering and downloading.
- **Requests.** `doRequest` sets Authorization, Accept and Content-Type. `doRequestRaw` sets Authorization and then applies the caller's overrides.
- **Replies.**
  - `doRequest` treats [200,300) as success and anything else as `APIError{status, body}`.
  - Downloads succeed only on exactly 200.
  - The voucher upload looks only at the status.
  - The file upload reads the body before it checks the status.
- **Errors.** `APIError`, its message and its four predicates.

The HTTP exchange is an oracle, a function from the request sent to the
reply received: a transport failure, or a status and a body that reads in
full or fails part way. JSON encoding of a request body is given by its
result (`Payload`). JSON decoding is a partial function passed in as a
parameter. `Transport.Route` records what each resource method sends:
verb, path with query, Accept, whether a body goes along, and whether the
reply goes through `doRequest` or the download path. `Api.Table` maps every
operation of the library to its route.

The partner of query construction is a reader for the query. It first
drops everything from the first `#`, as `url.Parse` inside
`http.NewRequestWithContext` does: a fragment is never sent (`Query.Sent`).
It then splits what is sent at `?`, splits the query at `&` and `=`, and
keeps the first value for each key. Values are read as raw query text:
the reader does not decode `+` or `%XX`. `List` values go out escaped, so
each read-back value is `QueryEscape` of the value put in. Ids and the
preceding voucher id go out as written. The main read-back lemmas state
that the server recovers, as raw text, exactly the pairs each `List`,
`Create` and `Pursue` put in:

- `Query.TargetParses`
- `Articles.ListReadsBack`
- `SalesVouchers.PursueReadsBack`

Modules follow the source files:

| module | source |
|---|---|
| `Text` | decimal text as `strconv.Itoa`, plus string helpers |
| `Query` | `buildQueryString`, `addPagination`, `url.Values.Encode` |
| `Transport` | the rest of `client.go` |
| `Articles`, `Contacts` | `articles.go`, `contacts.go` |
| `Vouchers`, `VoucherList` | `vouchers.go` |
| `SalesVouchers` | `sales_vouchers.go`, and the shape shared with invoices |
| `Invoices` | `invoices.go` |
| `Misc` | `misc.go` |
| `Files`, `Events` | `files_events.go` |
| `Api` | the whole table |

The Go code changes state in three places, and the model keeps each one imperative:

- Code that fills a map in place becomes methods on the `Query.ParamMap` class.
- Loops become `while` loops with invariants: the `buildQueryString` loop and the `doRequestRaw` header loop.
- `path +=` becomes reassignment in `CreatePath` and `PursuePath`.

Each of these is proved equal to a specification function.

## Model

| member | source | states |
|---|---|---|
| Text.ItoaRoundTrip | lexware/client.go:220-225 | the decimal text of any integer, sign included, parses back to that integer |
| Text.SortedKeys | lexware/client.go:210 | the keys of a map in strictly increasing byte order, each key exactly once (the order url.Values.Encode writes) |
| Query.QueryEscape | lexware/client.go:210 | every output character is unreserved, '%', hex or '+'; text made of unreserved characters is left unchanged; the output is never shorter |
| Query.EscapedHasNo | lexware/client.go:210 | escaped text never contains '&', '=' or '?', so keys and values cannot break the query apart |
| Query.Encode | lexware/client.go:210 | the encoding is empty exactly when the map is empty |
| Query.NonEmpty | lexware/client.go:205-209 | keeps exactly the pairs whose value is not "", with their values |
| Query.QueryString | lexware/client.go:200-214 | "" exactly when every value is "" (the empty map included); otherwise '?' followed by the encoding of the non-empty pairs |
| Query.BuildQueryString | lexware/client.go:200-214 | the loop over the map yields QueryString(params), which depends only on the map and not on the order the loop visits it |
| Query.QueryIgnoresEmpty | lexware/client.go:205-209 | pairs with an empty value make no difference to the query string |
| Query.EncodeParses | lexware/client.go:210 | reading an encoding back gives the escaped pairs in key order |
| Query.TargetParses | lexware/client.go:200-214 | path + query reads back as the path and as exactly the non-empty pairs, values escaped (keys plain) |
| Query.TargetCarries | lexware/client.go:200-214 | when no value is empty, path + query reads back as the path and every pair, values escaped |
| Query.Sent | lexware/client.go:148 | what goes on the wire is the target up to, not including, its first '#': a prefix with no '#', followed in the target by '#'; a target without '#' is sent whole |
| Query.SentOnly | lexware/client.go:148 | the path and the parameters the server reads depend only on the sent part of the target |
| Query.PlainTarget | lexware/client.go:200-214 | a path without '?', '#' or a query reads back as itself, with no parameters |
| Query.ItemReadsBack | lexware/articles.go:26 | an item path collection/{id}, for an id without '?', reads back as collection/ followed by the id up to its first '#' (the whole id when it has none), with no parameters |
| Query.NumberReadsBack | lexware/client.go:220-225 | a number's decimal text escapes to itself and parses back to the number |
| Query.Paginate | lexware/client.go:216-226 | nil options leave the map as it is; page and size are set, to their decimal text, exactly when positive; every other key is unchanged |
| Query.ParamMap.constructor | lexware/articles.go:55 | a new parameter map is empty |
| Query.ParamMap.Set | lexware/contacts.go:60-68 | the map afterwards is the old map with the key set to the value |
| Query.ParamMap.SetIfNotEmpty | lexware/articles.go:58-66 | the key is set exactly when the value is not "" (`if v != "" { params[k] = v }`); otherwise the map is unchanged |
| Query.AddPagination | lexware/client.go:216-226 | the caller's map is replaced by Paginate of its old contents |
| Query.FilledStep | lexware/articles.go:58-66 | one conditional insert of a fresh key adds that key to the filled part of the map, or nothing when its text is "" |
| Query.ListQuery | lexware/articles.go:55-67 | pagination plus the filter texts: each filter key present exactly when its text is not "", carrying the text; no other key and no empty value |
| Query.ListQueryReadsBack | lexware/client.go:200-214 | a List target reads back as the path and exactly its parameters, values escaped |
| Transport.NewClientWithConfig | lexware/client.go:68-91 | fails exactly on an empty key; an empty base URL becomes DefaultBaseURL; a supplied HTTP client is kept and Timeout ignored; otherwise Timeout, or 30 s when it is zero |
| Transport.NewClient | lexware/client.go:63-65 | fails exactly on an empty key; otherwise the default base URL and a 30 s timeout |
| Transport.DefaultingIsStable | lexware/client.go:68-91 | building a client again from a client's own settings gives the same client |
| Transport.ApiError.Error | lexware/client.go:234-236 | the message begins with "Lexware API error (status " |
| Transport.ErrorMessageRoundTrip | lexware/client.go:234-236 | the status code and the body can be read back from the message |
| Transport.DiscriminatorsExclusive | lexware/client.go:238-241 | at most one of IsNotFound (404), IsConflict (409), IsRateLimited (429) and IsUnauthorized (401) holds |
| Transport.JsonRequest | lexware/client.go:139-157 | an unencodable body fails before sending; otherwise the request goes to baseURL + path with Authorization "Bearer key", Accept JSON, Content-Type JSON exactly when a body is given, and no other header |
| Transport.Classify | lexware/client.go:159-174 | the body is read first, and a failed read is a local error whatever the status; [200,300) yields the body; any other status yields APIError with that status and that body |
| Transport.DoRequest | lexware/client.go:138-175 | success exactly on a fully read 2xx reply, with its body; APIError exactly on a fully read non-2xx reply, with its status and body; an unencodable body is a marshal error |
| Transport.RawHeaders | lexware/client.go:192-195 | Authorization plus the overrides and nothing else; an override wins over Authorization |
| Transport.SetRawHeaders | lexware/client.go:192-195 | the loop of Header.Set calls yields RawHeaders, whatever order it visits the overrides in |
| Transport.RawRequest | lexware/client.go:177-198 | like doRequest's request, but with only Authorization and the overrides as headers |
| Transport.ClassifyDownload | lexware/sales_vouchers.go:54-58 | success exactly on status 200, handing back the unread body; any other status is APIError with the status and whatever of the body could be read |
| Transport.DownloadIsStricter | lexware/sales_vouchers.go:54-58 | every download success is a doRequest success; 201 and 204 succeed in doRequest but fail a download |
| Transport.ClassifyStatus | lexware/vouchers.go:98-107 | success exactly on a 2xx status, without reading the body; otherwise APIError with the status and whatever of the body could be read |
| Transport.StatusOnlyIgnoresBody | lexware/vouchers.go:103-107 | on a 2xx reply whose body fails to read, doRequest fails but the upload status rule succeeds |
| Transport.MultipartRequest | lexware/vouchers.go:91-97 | POST to baseURL + path with exactly Authorization, the multipart Content-Type with the boundary, and Accept JSON; the form is the body |
| Transport.Unmarshal | lexware/articles.go:14-22 | success exactly when the call succeeded and its body decodes; a body that does not decode is "failed to unmarshal response"; errors pass through unchanged |
| Transport.ErrorOnly | lexware/articles.go:49-52 | a call that returns only its error succeeds exactly when the request does, with the same error |
| Transport.PreparedRequest | lexware/client.go:148-157 | every route sends its verb to baseURL + target with the bearer key and the route's Accept, and a Content-Type exactly when a body goes along |
| Transport.NonSuccessIsApiError | lexware/client.go:170-172 | on any route, a fully read reply outside [200,300) becomes APIError with exactly that status and body |
| Articles.ListParams | lexware/articles.go:55-66 | articleNumber, gtin and type each present exactly when the filter field is not "", verbatim; a nil filter gives pagination only; no other key |
| Articles.InsertsFill | lexware/articles.go:57-66 | the three conditional inserts in the source's order leave the map plus exactly the filled filter texts |
| Articles.ListTarget | lexware/articles.go:54-68 | the List target built step by step is /v1/articles followed by the query string of ListParams |
| Articles.ListReadsBack | lexware/articles.go:68 | the server reads the List target as /v1/articles and exactly ListParams, values escaped |
| Articles.RouteOf | lexware/articles.go:13-68 | Create is POST with a body to exactly /v1/articles; Update is PUT with a body, Get is GET and Delete is DELETE with no body, all to exactly /v1/articles/{id}; for an id without '?' the server reads /v1/articles/ followed by the id up to its first '#', with no parameter; List is GET of exactly /v1/articles followed by the built query string; all ask for JSON |
| Articles.UnfilteredListIsPaginationOnly | lexware/articles.go:55-68 | with a nil filter List sends only the pagination parameters, and with nil options the bare collection |
| Contacts.ListParams | lexware/contacts.go:53-69 | email and name when not ""; number as its decimal text exactly when not zero, negatives included; customer and vendor as "true" exactly when set, a false flag adding nothing; a nil filter gives pagination only |
| Contacts.InsertsFill | lexware/contacts.go:54-68 | the five conditional inserts in order leave the map plus exactly the filled texts |
| Contacts.ListTarget | lexware/contacts.go:50-70 | the List target built field by field is /v1/contacts followed by the query string of ListParams |
| Contacts.ListReadsBack | lexware/contacts.go:70 | the server reads the List target as /v1/contacts and exactly ListParams, values escaped |
| Contacts.NumberFilterReadsBack | lexware/contacts.go:60-62 | a non-zero number filter reaches the server and parses back to the same number, sign included |
| Contacts.RouteOf | lexware/contacts.go:14-70 | Create is POST to exactly /v1/contacts; Update is PUT and Get is GET to exactly /v1/contacts/{id}; for an id without '?' the server reads /v1/contacts/ followed by the id up to its first '#', with no parameter; List is GET of exactly /v1/contacts followed by the built query string; no DELETE |
| Vouchers.ListParams | lexware/vouchers.go:55-66 | voucherNumber, voucherStatus and contactId each present exactly when not "", verbatim; a nil filter gives pagination only |
| Vouchers.InsertsFill | lexware/vouchers.go:56-66 | the three conditional inserts in order leave the map plus exactly the filled texts |
| Vouchers.ListTarget | lexware/vouchers.go:53-67 | the List target built field by field is /v1/vouchers followed by the query string of ListParams |
| Vouchers.ListReadsBack | lexware/vouchers.go:67 | the server reads the List target as /v1/vouchers and exactly ListParams, values escaped |
| Vouchers.StatusFilterVerbatim | lexware/vouchers.go:60-62 | each named voucher status reaches the server exactly as written |
| Vouchers.RouteOf | lexware/vouchers.go:17-67 | Create is POST to exactly /v1/vouchers; Update is PUT and Get is GET to exactly /v1/vouchers/{id}; for an id without '?' the server reads /v1/vouchers/ followed by the id up to its first '#', with no parameter; List is GET of exactly /v1/vouchers followed by the built query string |
| Vouchers.UploadFile | lexware/vouchers.go:78-108 | a content read failure is "failed to copy file content"; otherwise the form with the single part "file" is POSTed to /v1/vouchers/{id}/files and the status alone decides: 2xx is success, any other status is APIError |
| VoucherList.ListParams | lexware/vouchers.go:113-150 | archived is present exactly when not nil, as "true" or "false"; a nil filter gives pagination only |
| VoucherList.StringFiltersVerbatim | lexware/vouchers.go:116-131 | voucherType, voucherStatus and contactId are present exactly when not "", verbatim |
| VoucherList.DateFiltersVerbatim | lexware/vouchers.go:132-149 | each of the six date bounds is present exactly when not "", verbatim, under its own key |
| VoucherList.InsertsFill | lexware/vouchers.go:115-149 | the ten conditional inserts in order leave the map plus exactly the filled texts |
| VoucherList.SetArchived | lexware/vouchers.go:122-128 | nil adds nothing; a set flag adds archived = "true" or "false" |
| VoucherList.ListTarget | lexware/vouchers.go:112-151 | the List target built field by field is /v1/voucherlist followed by the query string of ListParams |
| VoucherList.ListReadsBack | lexware/vouchers.go:151 | the server reads the List target as /v1/voucherlist and exactly ListParams, values escaped |
| VoucherList.ArchivedTriState | lexware/vouchers.go:122-128 | the server reads no archived parameter for nil, "true" for true and "false" for false |
| VoucherList.ListRoute | lexware/vouchers.go:151 | List is a body-less GET of /v1/voucherlist whose parameters read back as ListParams |
| SalesVouchers.CreatePath | lexware/sales_vouchers.go:17-20 | the path built by `+=` is the collection, followed by "?finalize=true" exactly when finalize is set, and it reads back as such |
| SalesVouchers.CreateReadsBack | lexware/sales_vouchers.go:17-20 | the server reads Create's target as the collection, with finalize=true exactly when finalize is set and otherwise no parameter |
| SalesVouchers.PursuePath | lexware/sales_vouchers.go:94-97 | the path built by `+=` is collection?precedingSalesVoucherId=<id>, followed by &finalize=true exactly when finalize is set |
| SalesVouchers.PursueReadsBack | lexware/sales_vouchers.go:94-97 | for an id without '&' or '#', the server reads the preceding id as raw text unchanged, and finalize=true exactly when finalize is set |
| SalesVouchers.FragmentDropsFinalize | lexware/sales_vouchers.go:94-97 | for an id with '#', the server reads only the id up to its '#' and never finalize, even when finalize is set |
| SalesVouchers.FragmentLosesFinalize | lexware/sales_vouchers.go:94-97 | Pursue with finalize set and id "x#y" reaches the server as id "x" without finalize |
| SalesVouchers.UnescapedIdCanFinalize | lexware/sales_vouchers.go:94 | the id is not escaped: Pursue with finalize unset and id "x&finalize=true" reaches the server with finalize=true |
| SalesVouchers.DunningFragment | lexware/sales_vouchers.go:196 | for a preceding id with '#', the server reads only the id up to its '#' |
| SalesVouchers.DunningReadsBack | lexware/sales_vouchers.go:196 | for a preceding id without '&' or '#', a dunning is created on /v1/dunnings with precedingSalesVoucherId and no other parameter (never finalize) |
| SalesVouchers.UnescapedDunningIdCanFinalize | lexware/sales_vouchers.go:196 | the id is not escaped here either: a dunning for id "x&finalize=true" reaches the server with finalize=true |
| SalesVouchers.DunningRoute | lexware/sales_vouchers.go:195-206 | dunning Create is a POST with a body to exactly /v1/dunnings?precedingSalesVoucherId=<id>, which reads back as the preceding id only when the id has no '&' or '#', and as the id up to its '#' when it has one |
| SalesVouchers.DunningPursueIsCreate | lexware/sales_vouchers.go:220-222 | dunning Pursue returns exactly what Create returns, for every server reply |
| SalesVouchers.RouteOf | lexware/sales_vouchers.go:16-333 | the creating calls are POSTs with a body to exactly the Create, Pursue and dunning targets above, read back by the rules above (Pursue and dunning for ids without '&' or '#', and cut at the first '#' otherwise); Get is GET of exactly the collection + /{id}, read back up to the id's first '#'; Get, RenderDocument and DownloadDocument are body-less GETs; only DownloadDocument asks for application/pdf and goes through the 200-only rule, on the same /document path as RenderDocument |
| SalesVouchers.RenderFailsIffRequestFails | lexware/sales_vouchers.go:44-47 | RenderDocument drops the body and fails exactly when doRequest on the /document path fails, with its error |
| SalesVouchers.DownloadOnly200 | lexware/sales_vouchers.go:49-60 | DownloadDocument sends only the bearer key and Accept application/pdf, succeeds exactly on 200 with the body, and gives APIError{status, body} for every other status |
| SalesVouchers.RenderAndDownloadShareTarget | lexware/sales_vouchers.go:109-125 | Render and Download of a voucher address the same path; only the download asks for a PDF |
| SalesVouchers.DownPaymentInvoicesReadOnly | lexware/sales_vouchers.go:310-333 | down-payment invoices offer Get and DownloadDocument and nothing else |
| Invoices.InvoicesOffer | lexware/invoices.go:15-75 | invoices offer Create, Pursue, Get, RenderDocument and DownloadDocument |
| Invoices.CreateRoute | lexware/invoices.go:15-29 | Create is POST /v1/invoices?finalize=true when finalize is set and POST /v1/invoices otherwise, and reads back as finalize=true or no parameter |
| Invoices.PursueRoute | lexware/invoices.go:43-57 | Pursue is POST /v1/invoices?precedingSalesVoucherId=<id>, with &finalize=true appended exactly when finalize is set |
| Invoices.PursueReadsBack | lexware/invoices.go:44-48 | for a preceding id without '&' or '#', the server reads the preceding id as raw text unchanged, and finalize exactly when it was asked for |
| Invoices.GetRoute | lexware/invoices.go:31-41 | Get is a body-less GET of /v1/invoices/{id} |
| Invoices.DocumentRoutes | lexware/invoices.go:59-75 | RenderDocument and DownloadDocument both target /v1/invoices/{id}/document; the download asks for a PDF |
| Invoices.DownloadRejectsOther2xx | lexware/invoices.go:64-75 | a download answered 201 or 204 is APIError{status, body} |
| Misc.RecurringListTarget | lexware/misc.go:109-112 | the target built from a fresh map, addPagination and buildQueryString is /v1/recurring-templates plus the pagination query; with nil options, the bare path |
| Misc.RecurringListReadsBack | lexware/misc.go:109-112 | the server reads at most page and size, each present exactly when positive and parsing back to the option |
| Misc.RouteOf | lexware/misc.go:13-121 | every call is a body-less JSON GET; the fixed calls and Profile carry no parameter; Payment targets /v1/payments/{id}; recurring templates are read by id or listed with pagination only |
| Misc.TargetsIdentifyCall | lexware/misc.go:13-112 | two different calls never share a target, whatever their ids: no payment or template id makes a target equal to a fixed path or to the other kind's; only two recurring-template List calls may coincide |
| Misc.Marks | lexware/misc.go:13-112 | each call's target carries the characters after /v1/ that identify its call, and an item target ends in exactly its id |
| Files.Upload | lexware/files_events.go:17-57 | a content read failure is "failed to copy file content"; otherwise the file-then-type form is POSTed to /v1/files and the reply is read, classified and decoded as doRequest's would be |
| Files.UploadForm | lexware/files_events.go:20-32 | the form is the part "file" with the filename and content, followed by the field "type" with the upload type |
| Files.UploadReadsBodyFirst | lexware/files_events.go:45-48 | a reply body that fails to read fails the upload, even on a 2xx status |
| Files.UploadStatusRule | lexware/files_events.go:49-55 | a non-2xx reply is APIError{status, body} and is never decoded; a 2xx reply is decoded |
| Files.DownloadRouteOf | lexware/files_events.go:59-62 | Download is a body-less GET of exactly /v1/files/{id} asking for application/octet-stream; for an id without '?' the server reads the path up to the id's first '#', with no parameter |
| Files.DownloadOnly200 | lexware/files_events.go:59-70 | Download succeeds exactly on 200 with the body; every other status is APIError{status, body} |
| Events.RouteOf | lexware/files_events.go:74-115 | Create is POST /v1/event-subscriptions with a body; Get is GET and Delete is DELETE on exactly /v1/event-subscriptions/{id}, read back up to the id's first '#' for an id without '?'; List is GET of the collection |
| Events.ListResult | lexware/files_events.go:98-110 | List returns the decoded content sequence unwrapped, with no paging envelope; errors pass through |
| Events.DeleteFailsIffRequestFails | lexware/files_events.go:112-115 | Delete fails exactly when the DELETE request fails, with its error |
| Api.TableShape | lexware/client.go:138-198 | across every operation: a body goes along exactly on POST and PUT; exactly the two downloads go through doRequestRaw, as body-less GETs that do not ask for JSON; every other call asks for JSON |
| Api.VerbsByResource | lexware/articles.go:37-52 | only Update of articles, contacts and vouchers uses PUT; only articles and event subscriptions are deleted |
| Api.TableStatusRule | lexware/client.go:165-174 | across every operation: a download succeeds exactly on 200; any other call succeeds exactly on a fully read 2xx reply; a fully read non-2xx reply is APIError with that status and body |

## Left out

- The HTTP round trip (`httpClient.Do`), context cancellation and timeouts as behaviour. The exchange is a parameter of the model, and the timeout is only a stored number.
- `http.NewRequestWithContext` failing on a malformed URL ("failed to create request"). The model assumes every baseURL + path is accepted. Of what `url.Parse` does to an accepted URL, only the cut at the first '#' is modelled (`Query.Sent`); the base URL is taken to hold no '?' or '#'. The re-escaping of the path on the wire is not modelled.
- Decoding of query values by the server (`+` as a space, `%XX` as a byte). The reader keeps raw query text, so "read back unchanged" means as raw text.
- JSON encoding and decoding of the request and response types. A body is given by its encoding result. Decoding is a partial function passed in.
- The multipart writer itself: `CreateFormFile`, `WriteField` and `Close` errors, the wire layout of the form, and the random boundary. The model keeps the part names, their order and their content, and takes the boundary as a parameter.
- Closing of response bodies, and the stream handed back by downloads beyond its contents.
- Canonicalisation of header names by `Header.Set`. Headers are a map of the names as the source writes them.
- Query escaping by code points rather than bytes. Go escapes the UTF-8 bytes of a string, and the model encodes each character to its UTF-8 bytes. Invalid UTF-8 in a Go string has no counterpart here.
- The wiring of the twenty sub-clients in `NewClientWithConfig` (lexware/client.go:93-112). It only stores the client in each of them.
- The floating-point and `time.Time` fields of the request and response types, which the client carries through untouched.
- `lexware.go` (re-exports) and `lexware/interfaces.go` (declarations only).
- VoucherList.ListParams: its own contract states only the archived filter and the nil case. The nine string filters are stated by `VoucherList.StringFiltersVerbatim` and `VoucherList.DateFiltersVerbatim`, and the bounds on keys and values come from `Query.ListQuery`.
- SalesVouchers.PursueReadsBack: it is stated for preceding ids without '&' or '#'. An id containing '&' adds parameters of its own (see `SalesVouchers.UnescapedIdCanFinalize`), so no exact read-back holds for it. An id containing '#' is cut there, and its read-back is `SalesVouchers.FragmentDropsFinalize`.
- SalesVouchers.DunningReadsBack: it is stated for preceding ids without '&' or '#'. An id with '&' adds parameters of its own (see `SalesVouchers.UnescapedDunningIdCanFinalize`), and one with '#' is cut there (see `SalesVouchers.DunningFragment`).
- SalesVouchers.DunningRoute: its read-back is stated for preceding ids whose part before any '#' holds no '&', for the same reasons; its target is exact for every id.
- SalesVouchers.RouteOf: the read-back of the Pursue and dunning targets is stated for preceding ids whose part before any '#' holds no '&', and that of Get for ids without '?'; all its targets are exact for every id.
- Invoices.PursueReadsBack: it is stated for preceding ids without '&' or '#', for the same reasons as `SalesVouchers.PursueReadsBack`.
- Articles.RouteOf: the read-back of an item path is stated for ids without '?', since such an id starts a query of its own; an id with '#' is covered, cut at its first '#'.
- Contacts.RouteOf: the read-back of an item path is stated for ids without '?', since such an id starts a query of its own; an id with '#' is covered, cut at its first '#'.
- Vouchers.RouteOf: the read-back of an item path is stated for ids without '?', since such an id starts a query of its own; an id with '#' is covered, cut at its first '#'.
- Events.RouteOf: the read-back of an item path is stated for ids without '?', since such an id starts a query of its own; an id with '#' is covered, cut at its first '#'.
- Files.DownloadRouteOf: the read-back of an item path is stated for ids without '?', since such an id starts a query of its own; an id with '#' is covered, cut at its first '#'.
- Misc.RouteOf: its contract bounds the recurring-template List parameters to page and size. Their values are stated by `Misc.RecurringListReadsBack`.
