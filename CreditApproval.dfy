/** The admin credit approval page: the status filter, which requests show their
    code and their approve/reject buttons, and the per-customer history toggle. */
module CreditApproval {
  import opened Base
  import CreditRoutes

  type CreditRequest = CreditRoutes.CreditRequest

  /** The status as the page compares it with the filter. */
  function StatusName(s: CreditRoutes.Status): (r: string)
    ensures r in {"pending", "approved", "rejected"}
  {
    match s
    case Pending => "pending"
    case Approved => "approved"
    case Rejected => "rejected"
  }

  /** Different statuses have different names. */
  lemma StatusNameInjective(s: CreditRoutes.Status, t: CreditRoutes.Status)
    ensures StatusName(s) == StatusName(t) <==> s == t
  {
  }

  predicate Shown(req: CreditRequest, filter: string)
  {
    filter == "all" || StatusName(req.status) == filter
  }

  function ShownFor(filter: string): CreditRequest -> bool
  {
    (req: CreditRequest) => Shown(req, filter)
  }

  /** `filteredRequests` */
  function FilteredRequests(reqs: seq<CreditRequest>, filter: string): (r: seq<CreditRequest>)
    ensures filter == "all" ==> r == reqs
    ensures forall q :: q in r <==> q in reqs && (filter == "all" || StatusName(q.status) == filter)
  {
    FilterMembers(reqs, ShownFor(filter));
    if filter == "all" then FilterAll(reqs, ShownFor(filter)); Filter(reqs, ShownFor(filter))
    else Filter(reqs, ShownFor(filter))
  }

  /** The list keeps the requests' order. */
  lemma FilteredAppend(a: seq<CreditRequest>, b: seq<CreditRequest>, filter: string)
    ensures FilteredRequests(a + b, filter) == FilteredRequests(a, filter) + FilteredRequests(b, filter)
  {
    FilterAppend(a, b, ShownFor(filter));
  }

  /** A filter that is not a status name and not 'all' shows nothing. */
  lemma UnknownFilterShowsNothing(reqs: seq<CreditRequest>, filter: string)
    requires filter !in {"all", "pending", "approved", "rejected"}
    ensures FilteredRequests(reqs, filter) == []
  {
    FilterNone(reqs, ShownFor(filter));
  }

  /** `req.status === 'approved' && req.verificationCode`: the code, when it is shown. */
  function ShownCode(req: CreditRequest): (r: Option<string>)
    ensures r.Some? <==> req.status == CreditRoutes.Approved && req.verificationCode.Some?
                         && req.verificationCode.value != ""
    ensures r.Some? ==> r == req.verificationCode
  {
    if req.status == CreditRoutes.Approved && req.verificationCode.Some? && req.verificationCode.value != ""
    then req.verificationCode
    else None
  }

  /** Approve and Reject are offered only on pending requests. */
  predicate ShowsDecisionButtons(req: CreditRequest)
  {
    req.status == CreditRoutes.Pending
  }

  /** Under the 'pending' filter every card offers the buttons and none shows a code;
      under 'rejected' none offers the buttons. */
  lemma PendingViewFacts(reqs: seq<CreditRequest>, q: CreditRequest)
    ensures q in FilteredRequests(reqs, "pending") ==> ShowsDecisionButtons(q) && ShownCode(q).None?
    ensures q in FilteredRequests(reqs, "rejected") ==> !ShowsDecisionButtons(q) && ShownCode(q).None?
  {
    if q in FilteredRequests(reqs, "pending") {
      StatusNameInjective(q.status, CreditRoutes.Pending);
    }
    if q in FilteredRequests(reqs, "rejected") {
      StatusNameInjective(q.status, CreditRoutes.Rejected);
    }
  }

  /** The View/Hide History button: the same customer again deselects, another selects. */
  function ToggleCustomer(selected: Option<string>, customer: string): (r: Option<string>)
    ensures r.None? <==> selected == Some(customer)
    ensures r.Some? ==> r == Some(customer)
  {
    if selected == Some(customer) then None else Some(customer)
  }

  /** What a card shows below the reason. */
  datatype HistoryPanel = Closed | NoHistory | Entries(entries: seq<CreditRoutes.HistoryEntry>)

  function PanelFor(selected: Option<string>, req: CreditRequest, history: seq<CreditRoutes.HistoryEntry>)
    : (r: HistoryPanel)
    ensures r == Closed <==> selected != Some(req.customer)
    ensures r.Entries? ==> r.entries == history && history != []
  {
    if selected != Some(req.customer) then Closed
    else if history == [] then NoHistory
    else Entries(history)
  }

  /** The page's `customerHistory` starts empty and nothing ever assigns it. */
  const PageHistory: seq<CreditRoutes.HistoryEntry> := []

  /** So an open panel always says there is no previous history. */
  lemma HistoryAlwaysEmpty(selected: Option<string>, req: CreditRequest)
    ensures PanelFor(selected, req, PageHistory) == if selected == Some(req.customer) then NoHistory else Closed
  {
  }
}
