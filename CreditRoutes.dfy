/** The Express router for credit requests: an in-memory list of requests and a
    per-customer history, changed in place by five routes. Nothing is validated,
    approve and reject do not look at the current status, and verify does not
    consume a code. */
module CreditRoutes {
  import opened Base
  import opened Text

  datatype Status = Pending | Approved | Rejected

  datatype CreditRequest = CreditRequest(
    id: int, cashier: string, customer: string, amount: Option<int>, reason: string,
    status: Status, date: string, time: string, verificationCode: Option<string>)

  /** An entry of `customerHistory[customer]`: `{ id, amount, status, date }`. */
  datatype HistoryEntry = HistoryEntry(id: int, amount: Option<int>, status: Status, date: string)

  type History = map<string, seq<HistoryEntry>>

  datatype Store = Store(requests: seq<CreditRequest>, history: History)

  /** What a route answers: 201 with the new request, 200 with the updated one, or 404. */
  datatype Reply = Created(request: CreditRequest) | Found(request: CreditRequest) | NotFound

  datatype VerifyReply = Verified(request: CreditRequest) | NotVerified

  datatype Decision = Approve(code: string) | Reject

  function StatusCode(r: Reply): int
  {
    match r
    case Created(_) => 201
    case Found(_) => 200
    case NotFound => 404
  }

  /** A code from `Math.random().toString(36).substr(2, 6).toUpperCase()`: at most six
      characters, each a digit or an upper-case letter. */
  predicate IsServerCode(code: string)
  {
    |code| <= 6 && forall i :: 0 <= i < |code| ==> IsDigit(code[i]) || IsUpper(code[i])
  }

  function EntryOf(r: CreditRequest): HistoryEntry
  {
    HistoryEntry(r.id, r.amount, r.status, r.date)
  }

  /** The history entries the requests of customer `c` should have, in request order. */
  function HistoryOf(reqs: seq<CreditRequest>, c: string): seq<HistoryEntry>
  {
    if reqs == [] then []
    else
      var last := reqs[|reqs| - 1];
      HistoryOf(reqs[..|reqs| - 1], c) + (if last.customer == c then [EntryOf(last)] else [])
  }

  function Customers(reqs: seq<CreditRequest>): set<string>
  {
    set j | 0 <= j < |reqs| :: reqs[j].customer
  }

  /** The link between the two collections: one history list per customer with a
      request, holding exactly that customer's requests in order, with the same status. */
  predicate Consistent(st: Store)
  {
    st.history.Keys == Customers(st.requests)
    && forall c :: c in st.history ==> st.history[c] == HistoryOf(st.requests, c)
  }

  /** Every approved request carries a code, and every code has the server's shape. */
  predicate CodesWellFormed(reqs: seq<CreditRequest>)
  {
    forall j :: 0 <= j < |reqs| ==>
      (reqs[j].status == Approved ==> reqs[j].verificationCode.Some?)
      && (reqs[j].verificationCode.Some? ==> IsServerCode(reqs[j].verificationCode.value))
  }

  predicate Invariant(st: Store)
  {
    Consistent(st) && CodesWellFormed(st.requests)
  }

  function SeedRequests(): seq<CreditRequest>
  {
    [ CreditRequest(1, "Jane Smith", "Alice Johnson", Some(2000), "Regular customer, requested 7-day credit",
        Pending, "2023-10-01", "14:30", None),
      CreditRequest(2, "John Doe", "Bob Williams", Some(1500), "Bulk order, payment next week",
        Pending, "2023-10-01", "15:00", None),
      CreditRequest(3, "Jane Smith", "Carol Davis", Some(3000), "Corporate order, invoice payment",
        Approved, "2023-09-30", "10:00", Some("123456")) ]
  }

  function SeedHistory(): History
  {
    map[
      "Alice Johnson" := [HistoryEntry(1, Some(2000), Pending, "2023-10-01")],
      "Bob Williams" := [HistoryEntry(2, Some(1500), Pending, "2023-10-01")],
      "Carol Davis" := [HistoryEntry(3, Some(3000), Approved, "2023-09-30")]]
  }

  /** The seed data already satisfies the invariant. */
  lemma SeedInvariant()
    ensures Invariant(Store(SeedRequests(), SeedHistory()))
  {
    SeedCustomers();
    SeedHistories();
    SeedCodes();
  }

  lemma SeedCustomers()
    ensures SeedHistory().Keys == Customers(SeedRequests())
  {
    var reqs := SeedRequests();
    assert forall j :: 0 <= j < 3 ==> reqs[j].customer in SeedHistory();
    assert reqs[0].customer in Customers(reqs);
    assert reqs[1].customer in Customers(reqs);
    assert reqs[2].customer in Customers(reqs);
  }

  lemma SeedHistories()
    ensures forall x :: x in SeedHistory() ==> SeedHistory()[x] == HistoryOf(SeedRequests(), x)
  {
    var reqs := SeedRequests();
    var a, b, c := reqs[0].customer, reqs[1].customer, reqs[2].customer;
    assert a != b && a != c && b != c by {
      assert a[0] == 'A' && b[0] == 'B' && c[0] == 'C';
    }
    SeedHistoryOf(a);
    SeedHistoryOf(b);
    SeedHistoryOf(c);
  }

  lemma SeedCodes()
    ensures CodesWellFormed(SeedRequests())
  {
    assert IsServerCode("123456");
  }

  /** The seed requests' history of any one customer, request by request. */
  lemma SeedHistoryOf(x: string)
    ensures var reqs := SeedRequests();
            HistoryOf(reqs, x) == (if x == reqs[0].customer then [EntryOf(reqs[0])] else [])
                                + (if x == reqs[1].customer then [EntryOf(reqs[1])] else [])
                                + (if x == reqs[2].customer then [EntryOf(reqs[2])] else [])
  {
    var reqs := SeedRequests();
    assert reqs[..2][..1] == reqs[..1];
    assert reqs[..1][..0] == [];
    assert HistoryOf(reqs[..1], x) == (if x == reqs[0].customer then [EntryOf(reqs[0])] else []);
    assert HistoryOf(reqs[..2], x) == HistoryOf(reqs[..1], x) + (if x == reqs[1].customer then [EntryOf(reqs[1])] else []);
  }

  // ----- lookups -----

  function HasId(id: int): CreditRequest -> bool
  {
    (r: CreditRequest) => r.id == id
  }

  function EntryHasId(id: int): HistoryEntry -> bool
  {
    (e: HistoryEntry) => e.id == id
  }

  function Verifies(customer: string, code: Option<string>): CreditRequest -> bool
  {
    (r: CreditRequest) => r.customer == customer && r.verificationCode == code && r.status == Approved
  }

  /** `customerHistory[customer] || []` */
  function Lookup(h: History, c: string): seq<HistoryEntry>
  {
    if c in h then h[c] else []
  }

  /** `const history = list.find(h => h.id === id); if (history) history.status = s;` */
  function SetEntryStatus(h: seq<HistoryEntry>, id: int, s: Status): (r: seq<HistoryEntry>)
    ensures |r| == |h|
    ensures forall j :: 0 <= j < |h| && j != FirstIndex(h, EntryHasId(id)) ==> r[j] == h[j]
    ensures FirstIndex(h, EntryHasId(id)) >= 0 ==>
      r[FirstIndex(h, EntryHasId(id))] == h[FirstIndex(h, EntryHasId(id))].(status := s)
  {
    var j := FirstIndex(h, EntryHasId(id));
    if j < 0 then h else h[j := h[j].(status := s)]
  }

  // ----- the routes, as functions of the store -----

  /** The record POST /requests builds; `id`, `date` and `time` come from the clock. */
  function NewRequest(id: int, cashier: string, customer: string, amount: Option<int>, reason: string,
                      date: string, time: string): CreditRequest
  {
    CreditRequest(id, cashier, customer, amount, reason, Pending, date, time, None)
  }

  /** POST /requests: append the request, and its entry to the customer's history
      (creating the list first when the customer has none). */
  function Submit(st: Store, r: CreditRequest): (out: Store)
    ensures out.requests == st.requests + [r]
    ensures out.history.Keys == st.history.Keys + {r.customer}
    ensures forall c :: c in st.history && c != r.customer ==> out.history[c] == st.history[c]
    ensures out.history[r.customer] == Lookup(st.history, r.customer) + [EntryOf(r)]
  {
    Store(st.requests + [r], st.history[r.customer := Lookup(st.history, r.customer) + [EntryOf(r)]])
  }

  /** The request after an approval (a new code, whatever the old status was) or a
      rejection (the old code stays). */
  function Decided(r: CreditRequest, d: Decision): CreditRequest
  {
    match d
    case Approve(code) => r.(status := Approved, verificationCode := Some(code))
    case Reject => r.(status := Rejected)
  }

  /** PUT /requests/:id/approve and /reject. The path parameter goes through parseInt;
      NaN matches no id. Only the first request with the id and the first history
      entry with the id under that request's customer change. */
  function Decide(st: Store, idParam: string, d: Decision): (out: (Store, Reply))
    requires Consistent(st)
    ensures out.1.NotFound? <==>
      (ParseInt(idParam).None? || FirstIndex(st.requests, HasId(ParseInt(idParam).value)) < 0)
    ensures out.1.NotFound? ==> out.0 == st
    ensures out.1.Found? ==>
      var i := FirstIndex(st.requests, HasId(ParseInt(idParam).value));
      && out.1.request == Decided(st.requests[i], d)
      && out.0.requests == st.requests[i := out.1.request]
      && out.0.history.Keys == st.history.Keys
      && forall c :: c in st.history && c != st.requests[i].customer ==> out.0.history[c] == st.history[c]
    ensures !out.1.Created?
  {
    match ParseInt(idParam)
    case None => (st, NotFound)
    case Some(id) =>
      var i := FirstIndex(st.requests, HasId(id));
      if i < 0 then (st, NotFound)
      else
        var r := Decided(st.requests[i], d);
        var c := st.requests[i].customer;
        assert c in Customers(st.requests);
        (Store(st.requests[i := r], st.history[c := SetEntryStatus(st.history[c], id, r.status)]), Found(r))
  }

  /** POST /verify: the first request of that customer with that code whose status is
      approved. Valid exactly when such a request exists. */
  function VerifyResult(reqs: seq<CreditRequest>, customer: string, code: Option<string>): (r: VerifyReply)
    ensures r.Verified? <==> exists j :: 0 <= j < |reqs| && reqs[j].customer == customer
                                      && reqs[j].verificationCode == code && reqs[j].status == Approved
    ensures r.Verified? ==>
      r.request in reqs && r.request.customer == customer
      && r.request.verificationCode == code && r.request.status == Approved
  {
    match Find(reqs, Verifies(customer, code))
    case None => NotVerified
    case Some(r) => Verified(r)
  }

  // ----- the invariant is preserved -----

  lemma {:induction false} HistoryOfAbsent(reqs: seq<CreditRequest>, c: string)
    requires c !in Customers(reqs)
    ensures HistoryOf(reqs, c) == []
  {
    if reqs != [] {
      var init := reqs[..|reqs| - 1];
      assert Customers(init) <= Customers(reqs) by {
        forall x | x in Customers(init) ensures x in Customers(reqs) {
          var j :| 0 <= j < |init| && init[j].customer == x;
          assert reqs[j].customer == x;
        }
      }
      HistoryOfAbsent(init, c);
      assert reqs[|reqs| - 1].customer in Customers(reqs);
    }
  }

  lemma CustomersAppend(reqs: seq<CreditRequest>, r: CreditRequest)
    ensures Customers(reqs + [r]) == Customers(reqs) + {r.customer}
  {
    var xs := reqs + [r];
    forall x | x in Customers(xs) ensures x in Customers(reqs) + {r.customer} {
      var j :| 0 <= j < |xs| && xs[j].customer == x;
      if j < |reqs| { assert reqs[j].customer == x; }
    }
    forall x | x in Customers(reqs) ensures x in Customers(xs) {
      var j :| 0 <= j < |reqs| && reqs[j].customer == x;
      assert xs[j].customer == x;
    }
    assert xs[|reqs|].customer == r.customer;
  }

  /** POST /requests keeps the invariant, whatever it is given. */
  lemma SubmitPreserves(st: Store, r: CreditRequest)
    requires Invariant(st)
    requires r.status == Pending && r.verificationCode.None?
    ensures Invariant(Submit(st, r))
  {
    var out := Submit(st, r);
    CustomersAppend(st.requests, r);
    assert out.requests[..|out.requests| - 1] == st.requests;
    if r.customer !in st.history {
      HistoryOfAbsent(st.requests, r.customer);
    }
  }

  /** A customer's history has no entry for an id that none of the requests has. */
  lemma {:induction false} HistoryOfNoId(reqs: seq<CreditRequest>, c: string, id: int)
    requires forall j :: 0 <= j < |reqs| ==> reqs[j].id != id
    ensures FirstIndex(HistoryOf(reqs, c), EntryHasId(id)) < 0
  {
    if reqs != [] {
      var init, last := reqs[..|reqs| - 1], reqs[|reqs| - 1];
      HistoryOfNoId(init, c, id);
      var tail := if last.customer == c then [EntryOf(last)] else [];
      FirstIndexAppend(HistoryOf(init, c), tail, EntryHasId(id));
    }
  }

  /** A request's entry is in its customer's history. */
  lemma {:induction false} HistoryOfHasId(reqs: seq<CreditRequest>, i: int)
    requires 0 <= i < |reqs|
    ensures FirstIndex(HistoryOf(reqs, reqs[i].customer), EntryHasId(reqs[i].id)) >= 0
  {
    var c, id := reqs[i].customer, reqs[i].id;
    var init, last := reqs[..|reqs| - 1], reqs[|reqs| - 1];
    var tail := if last.customer == c then [EntryOf(last)] else [];
    FirstIndexAppend(HistoryOf(init, c), tail, EntryHasId(id));
    if i < |reqs| - 1 {
      HistoryOfHasId(init, i);
    } else {
      assert tail == [EntryOf(last)];
      assert EntryHasId(id)(tail[0]);
    }
  }

  /** Changing the status of the first entry with an id leaves whatever follows it alone. */
  lemma {:induction false} SetEntryStatusAppend(h: seq<HistoryEntry>, tail: seq<HistoryEntry>, id: int, s: Status)
    requires FirstIndex(h, EntryHasId(id)) >= 0
    ensures SetEntryStatus(h + tail, id, s) == SetEntryStatus(h, id, s) + tail
  {
    FirstIndexAppend(h, tail, EntryHasId(id));
    var k := FirstIndex(h, EntryHasId(id));
    assert FirstIndex(h + tail, EntryHasId(id)) == k;
    var e := h[k].(status := s);
    assert SetEntryStatus(h, id, s) == h[k := e];
    assert (h + tail)[k] == h[k];
    assert SetEntryStatus(h + tail, id, s) == (h + tail)[k := e];
    assert (h + tail)[k := e] == h[k := e] + tail;
  }

  /** The case where the changed request is the last one. */
  lemma {:induction false} HistoryOfUpdateLast(reqs: seq<CreditRequest>, r': CreditRequest)
    requires reqs != [] && FirstIndex(reqs, HasId(reqs[|reqs| - 1].id)) == |reqs| - 1
    requires r' == reqs[|reqs| - 1].(status := r'.status, verificationCode := r'.verificationCode)
    ensures HistoryOf(reqs[|reqs| - 1 := r'], reqs[|reqs| - 1].customer)
         == SetEntryStatus(HistoryOf(reqs, reqs[|reqs| - 1].customer), reqs[|reqs| - 1].id, r'.status)
  {
    var n := |reqs|;
    var init, last := reqs[..n - 1], reqs[n - 1];
    var id, c := last.id, last.customer;
    assert reqs[n - 1 := r'][..n - 1] == init;
    assert forall j :: 0 <= j < |init| ==> init[j].id != id by {
      forall j | 0 <= j < |init| ensures init[j].id != id {
        assert !HasId(id)(reqs[j]);
      }
    }
    HistoryOfNoId(init, c, id);
    var h := HistoryOf(init, c);
    FirstIndexAppend(h, [EntryOf(last)], EntryHasId(id));
    assert FirstIndex(h + [EntryOf(last)], EntryHasId(id)) == |h|;
    assert HistoryOf(reqs, c) == h + [EntryOf(last)];
    assert (h + [EntryOf(last)])[|h| := EntryOf(r')] == h + [EntryOf(r')];
  }

  /** Changing the status of the first request with an id changes exactly the
      first entry with that id in that customer's history. */
  lemma {:induction false} HistoryOfUpdate(reqs: seq<CreditRequest>, i: int, r': CreditRequest, c: string)
    requires 0 <= i < |reqs| && FirstIndex(reqs, HasId(reqs[i].id)) == i
    requires r' == reqs[i].(status := r'.status, verificationCode := r'.verificationCode)
    ensures HistoryOf(reqs[i := r'], c) ==
      if c == reqs[i].customer then SetEntryStatus(HistoryOf(reqs, c), reqs[i].id, r'.status)
      else HistoryOf(reqs, c)
  {
    var id, n := reqs[i].id, |reqs|;
    var init, last := reqs[..n - 1], reqs[n - 1];
    var upd := reqs[i := r'];
    if i == n - 1 {
      assert upd[..n - 1] == init;
      if c == reqs[i].customer {
        HistoryOfUpdateLast(reqs, r');
      }
    } else {
      assert reqs == init + [last];
      assert upd[..n - 1] == init[i := r'];
      assert upd[n - 1] == last;
      FirstIndexAppend(init, [last], HasId(id));
      HistoryOfUpdate(init, i, r', c);
      var tail := if last.customer == c then [EntryOf(last)] else [];
      assert HistoryOf(upd, c) == HistoryOf(init[i := r'], c) + tail;
      assert HistoryOf(reqs, c) == HistoryOf(init, c) + tail;
      if c == reqs[i].customer {
        HistoryOfHasId(init, i);
        SetEntryStatusAppend(HistoryOf(init, c), tail, id, r'.status);
      }
    }
  }

  /** Approve and reject keep the invariant: so the history lookup they make always
      finds the customer's list, and its entry always mirrors the request. */
  lemma DecidePreserves(st: Store, idParam: string, d: Decision)
    requires Invariant(st)
    requires d.Approve? ==> IsServerCode(d.code)
    ensures Invariant(Decide(st, idParam, d).0)
  {
    var out := Decide(st, idParam, d);
    if out.1.Found? {
      var id := ParseInt(idParam).value;
      var i := FirstIndex(st.requests, HasId(id));
      var r := Decided(st.requests[i], d);
      var reqs' := st.requests[i := r];
      assert out.0.requests == reqs';
      forall c | c in out.0.history ensures out.0.history[c] == HistoryOf(reqs', c) {
        HistoryOfUpdate(st.requests, i, r, c);
      }
      CustomersUpdate(st.requests, i, r);
      DecideCodes(st.requests, i, d);
    }
  }

  /** Replacing a request by one of the same customer keeps the set of customers. */
  lemma CustomersUpdate(reqs: seq<CreditRequest>, i: int, r: CreditRequest)
    requires 0 <= i < |reqs| && r.customer == reqs[i].customer
    ensures Customers(reqs[i := r]) == Customers(reqs)
  {
    var reqs' := reqs[i := r];
    forall x | x in Customers(reqs) ensures x in Customers(reqs') {
      var j :| 0 <= j < |reqs| && reqs[j].customer == x;
      assert reqs'[j].customer == x;
    }
    forall x | x in Customers(reqs') ensures x in Customers(reqs) {
      var j :| 0 <= j < |reqs'| && reqs'[j].customer == x;
      assert reqs[j].customer == x;
    }
  }

  /** A decision with a well-formed code keeps every code well-formed. */
  lemma DecideCodes(reqs: seq<CreditRequest>, i: int, d: Decision)
    requires CodesWellFormed(reqs) && 0 <= i < |reqs|
    requires d.Approve? ==> IsServerCode(d.code)
    ensures CodesWellFormed(reqs[i := Decided(reqs[i], d)])
  {
  }

  /** Once approved with a code, the request verifies for its customer with that code,
      and goes on verifying: verification changes nothing. */
  lemma ApproveThenVerify(st: Store, idParam: string, code: string)
    requires Consistent(st)
    requires Decide(st, idParam, Approve(code)).1.Found?
    ensures VerifyResult(Decide(st, idParam, Approve(code)).0.requests,
                         Decide(st, idParam, Approve(code)).1.request.customer, Some(code)).Verified?
  {
    var out := Decide(st, idParam, Approve(code));
    var i := FirstIndex(st.requests, HasId(ParseInt(idParam).value));
    assert out.0.requests[i] == out.1.request;
  }

  /** A request that was approved and then rejected keeps its old code, but that code
      no longer verifies through this request. */
  lemma RejectKeepsCode(st: Store, idParam: string)
    requires Consistent(st)
    requires Decide(st, idParam, Reject).1.Found?
    ensures var i := FirstIndex(st.requests, HasId(ParseInt(idParam).value));
            Decide(st, idParam, Reject).1.request.verificationCode == st.requests[i].verificationCode
            && Decide(st, idParam, Reject).1.request.status == Rejected
  {
  }

  /** A verification without a code (JSON null) never succeeds, since every approved
      request holds a code. */
  lemma VerifyNullCode(reqs: seq<CreditRequest>, customer: string)
    requires CodesWellFormed(reqs)
    ensures VerifyResult(reqs, customer, None) == NotVerified
  {
  }

  /** The two collections, updated in place by the route handlers. */
  class CreditRouter {
    var requests: seq<CreditRequest>
    var history: History

    function State(): Store
      reads this
    {
      Store(requests, history)
    }

    predicate Valid()
      reads this
    {
      Invariant(State())
    }

    constructor ()
      ensures requests == SeedRequests() && history == SeedHistory()
      ensures Valid()
    {
      requests := SeedRequests();
      history := SeedHistory();
      SeedInvariant();
    }

    /** GET /requests */
    method ListRequests() returns (rs: seq<CreditRequest>)
      ensures rs == requests
    {
      rs := requests;
    }

    /** POST /requests: always 201; nothing in the body is checked. */
    method PostRequest(id: int, cashier: string, customer: string, amount: Option<int>, reason: string,
                       date: string, time: string) returns (reply: Reply)
      requires Valid()
      modifies this
      ensures Valid()
      ensures reply == Created(NewRequest(id, cashier, customer, amount, reason, date, time))
      ensures StatusCode(reply) == 201
      ensures State() == Submit(old(State()), reply.request)
    {
      var r := NewRequest(id, cashier, customer, amount, reason, date, time);
      SubmitPreserves(State(), r);
      requests := requests + [r];
      if customer !in history {
        history := history[customer := []];
      }
      assert history[customer] == Lookup(old(history), customer);
      history := history[customer := history[customer] + [EntryOf(r)]];
      assert history == old(history)[customer := Lookup(old(history), customer) + [EntryOf(r)]];
      reply := Created(r);
    }

    /** PUT /requests/:id/approve, with `code` the freshly generated code. */
    method ApproveRequest(idParam: string, code: string) returns (reply: Reply)
      requires Valid() && IsServerCode(code)
      modifies this
      ensures Valid()
      ensures (State(), reply) == Decide(old(State()), idParam, Approve(code))
    {
      reply := Apply(idParam, Approve(code));
    }

    /** PUT /requests/:id/reject */
    method RejectRequest(idParam: string) returns (reply: Reply)
      requires Valid()
      modifies this
      ensures Valid()
      ensures (State(), reply) == Decide(old(State()), idParam, Reject)
    {
      reply := Apply(idParam, Reject);
    }

    method Apply(idParam: string, d: Decision) returns (reply: Reply)
      requires Valid() && (d.Approve? ==> IsServerCode(d.code))
      modifies this
      ensures Valid()
      ensures (State(), reply) == Decide(old(State()), idParam, d)
    {
      DecidePreserves(State(), idParam, d);
      var parsed := ParseInt(idParam);
      if parsed.None? {
        return NotFound;
      }
      var id := parsed.value;
      var i := FirstIndex(requests, HasId(id));
      if i < 0 {
        return NotFound;
      }
      var r := Decided(requests[i], d);
      requests := requests[i := r];
      var c := r.customer;
      assert c in Customers(old(requests));
      history := history[c := SetEntryStatus(history[c], id, r.status)];
      reply := Found(r);
    }

    /** POST /verify: reads only. */
    method Verify(code: Option<string>, customer: string) returns (reply: VerifyReply)
      ensures reply == VerifyResult(requests, customer, code)
      ensures reply.Verified? <==> exists j :: 0 <= j < |requests| && requests[j].customer == customer
                                           && requests[j].verificationCode == code
                                           && requests[j].status == Approved
    {
      var i := FirstIndex(requests, Verifies(customer, code));
      reply := if i < 0 then NotVerified else Verified(requests[i]);
    }

    /** GET /history/:customer: the customer's requests as history entries, in
        submission order, with their current status; [] for an unknown customer. */
    method CustomerHistory(customer: string) returns (entries: seq<HistoryEntry>)
      requires Valid()
      ensures entries == HistoryOf(requests, customer)
    {
      entries := if customer in history then history[customer] else [];
      if customer !in history {
        HistoryOfAbsent(requests, customer);
      }
    }
  }
}
