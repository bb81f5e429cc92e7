/**
 * The small read-only resources (lexware/misc.go): countries, the profile,
 * payments, payment conditions, posting categories, print layouts and
 * recurring templates. All are body-less GETs through doRequest; only the
 * recurring-template List carries a query, and only pagination.
 */
module Misc {
  import opened Text
  import opened Query
  import opened Transport

  const Payments: string := "/v1/payments"
  const RecurringTemplates: string := "/v1/recurring-templates"

  /** The calls of the seven clients, with their arguments. */
  datatype Call =
    | Countries
    | Profile
    | Payment(id: string)
    | PaymentConditions
    | PostingCategories
    | PrintLayouts
    | RecurringTemplate(id: string)
    | RecurringTemplates(opts: Option<ListOptions>)
  {
    /** The calls that take neither an id nor options. */
    predicate Fixed()
    {
      Countries? || Profile? || PaymentConditions? || PostingCategories? || PrintLayouts?
    }
  }

  /** The path of each call that takes no argument. */
  function FixedPath(call: Call): (p: string)
    requires call.Fixed()
    ensures '?' !in p && '#' !in p
  {
    match call
    case Countries => "/v1/countries"
    case Profile => "/v1/profile"
    case PaymentConditions => "/v1/payment-conditions"
    case PostingCategories => "/v1/posting-categories"
    case PrintLayouts => "/v1/print-layouts"
  }

  /**
   * The recurring-template List target (lexware/misc.go:109-112), built as
   * the source builds it: a fresh map, addPagination, buildQueryString.
   */
  method RecurringListTarget(opts: Option<ListOptions>) returns (target: string)
    ensures target == RecurringTemplates + QueryString(Paginate(map[], opts))
    ensures opts.None? ==> target == RecurringTemplates
  {
    var params := new ParamMap();
    AddPagination(params, opts);
    var qs := BuildQueryString(params.entries);
    target := RecurringTemplates + qs;
  }

  /**
   * What the server reads from the recurring-template List target: the
   * path /v1/recurring-templates and at most page and size, each the
   * decimal text of a positive option.
   */
  lemma RecurringListReadsBack(opts: Option<ListOptions>)
    ensures TargetPath(RecurringTemplates + QueryString(Paginate(map[], opts))) == RecurringTemplates
    ensures var sent := TargetParams(RecurringTemplates + QueryString(Paginate(map[], opts)));
            && sent.Keys <= {"page", "size"}
            && ("page" in sent <==> opts.Some? && opts.value.page > 0)
            && ("size" in sent <==> opts.Some? && opts.value.size > 0)
            && ("page" in sent ==> ParseDecimal(sent["page"]) == Some(opts.value.page))
            && ("size" in sent ==> ParseDecimal(sent["size"]) == Some(opts.value.size))
  {
    ListQueryReadsBack(RecurringTemplates, opts, map[]);
    var r := Paginate(map[], opts);
    assert ListQuery(opts, map[]) == r;
    if opts.Some? && opts.value.page > 0 {
      NumberReadsBack(opts.value.page);
    }
    if opts.Some? && opts.value.size > 0 {
      NumberReadsBack(opts.value.size);
    }
  }

  /**
   * The route of each call: a body-less GET through doRequest with a JSON
   * Accept. The fixed calls read no parameter; Payment and
   * RecurringTemplate address the item by id; the recurring-template List
   * sends pagination only.
   */
  function RouteOf(call: Call): (r: Route)
    ensures r.verb == GET && !r.hasBody && r.accept == Json && r.shape == Buffered
    ensures call.Fixed() ==> r.target == FixedPath(call) && TargetParams(r.target) == map[]
    ensures call.Profile? ==> r.target == "/v1/profile"
    ensures call.Payment? ==> r.target == Payments + "/" + call.id
    ensures call.RecurringTemplate? ==> r.target == RecurringTemplates + "/" + call.id
    ensures (call.Payment? || call.RecurringTemplate?) && '?' !in call.id ==> TargetParams(r.target) == map[]
    ensures call.RecurringTemplates? ==>
              && TargetPath(r.target) == RecurringTemplates
              && TargetParams(r.target).Keys <= {"page", "size"}
    ensures call.RecurringTemplates? && call.opts.None? ==> r.target == RecurringTemplates
  {
    match call
    case Payment(id) =>
      ItemReadsBack(Payments, id);
      JsonRoute(GET, Payments + "/" + id, false)
    case RecurringTemplate(id) =>
      ItemReadsBack(RecurringTemplates, id);
      JsonRoute(GET, RecurringTemplates + "/" + id, false)
    case RecurringTemplates(opts) =>
      RecurringListReadsBack(opts);
      JsonRoute(GET, RecurringTemplates + QueryString(Paginate(map[], opts)), false)
    case _ =>
      PlainTarget(FixedPath(call));
      JsonRoute(GET, FixedPath(call), false)
  }

  /**
   * Distinct calls address distinct targets: no fixed path, payment id or
   * template id can be mistaken for another call's. Only two
   * recurring-template List calls may meet, when their options paginate
   * alike.
   */
  lemma TargetsIdentifyCall(a: Call, b: Call)
    requires a != b && !(a.RecurringTemplates? && b.RecurringTemplates?)
    ensures RouteOf(a).target != RouteOf(b).target
  {
    Marks(a);
    Marks(b);
  }

  /**
   * The characters of a target that tell the calls apart: the first two
   * after "/v1/" separate the groups, one more separates the pairs that
   * share them, and an item target ends in its id.
   */
  lemma Marks(call: Call)
    ensures Marked(call, RouteOf(call).target)
  {
    match call
    case Payment(id) =>
      ItemMarks(Payments, id);
    case RecurringTemplate(id) =>
      ItemMarks(RecurringTemplates, id);
    case RecurringTemplates(opts) =>
      var q := QueryString(Paginate(map[], opts));
      assert q == "" || q[0] == '?';
      ListMarks(opts, q);
    case _ =>
      FixedMarks(call);
  }

  /** The distinguishing characters of a call's target t. */
  predicate Marked(call: Call, t: string)
  {
    && |t| >= 11
    && (t[4] == 'c' <==> call.Countries?)
    && (t[4] == 'r' <==> call.RecurringTemplate? || call.RecurringTemplates?)
    && (t[5] == 'o' <==> call.Countries? || call.PostingCategories?)
    && (t[5] == 'r' <==> call.Profile? || call.PrintLayouts?)
    && (call.Profile? || call.PrintLayouts? ==> (t[6] == 'o' <==> call.Profile?))
    && (call.Payment? || call.PaymentConditions? ==> |t| >= 12 && (t[11] == 's' <==> call.Payment?))
    && (call.RecurringTemplate? || call.RecurringTemplates? ==>
          (|t| > 23 && t[23] == '/' <==> call.RecurringTemplate?))
    && (call.Payment? ==> |t| > |Payments| && t[|Payments| + 1..] == call.id)
    && (call.RecurringTemplate? ==> |t| > |RecurringTemplates| && t[|RecurringTemplates| + 1..] == call.id)
  }

  lemma FixedMarks(call: Call)
    requires call.Fixed()
    ensures Marked(call, FixedPath(call))
  {
  }

  lemma ItemMarks(collection: string, id: string)
    requires collection == Payments || collection == RecurringTemplates
    ensures Marked(if collection == Payments then Payment(id) else RecurringTemplate(id), collection + "/" + id)
  {
  }

  lemma ListMarks(opts: Option<ListOptions>, q: string)
    requires q == "" || q[0] == '?'
    ensures Marked(Call.RecurringTemplates(opts), RecurringTemplates + q)
  {
  }
}
