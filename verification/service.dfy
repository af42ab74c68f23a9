/**
  The service as a whole: requests handled one at a time against a store
  that starts empty, as `main` creates it. Each call is routed to its
  handler with the path parameters its route binds.
 */
module Service {
  import opened Wrappers
  import opened Bills
  import opened Requests
  import opened Responses
  import opened Handlers

  /**
    One request, named by the handler its route reaches. The create route
    `PUT /bills` has no `{bill-id}` segment, so it carries no path parameter.
   */
  datatype Call =
    | FindAll
    | Find(id: string)
    | Update(id: string, body: Body)
    | Create(body: Body)
    | Remove(id: string)

  /** The path parameters a create request reaches its handler with: none. */
  const CreateRouteParams: PathParams := map[]

  /**
    Handle one request against the store: the route table of the service.
    Lookups never write; the create route reaches its handler with `bill-id`
    unbound, so it stores what an update of the same body stores.
   */
  function Serve(s: Store, c: Call): (h: Handled)
    ensures c.FindAll? || c.Find? ==> h.store == s
    ensures c.FindAll? ==> h.response == OkAll(s)
    ensures c.Find? ==> (h.response.Ok? <==> c.id in s && s[c.id].id != "")
    ensures c.Update? ==> h.store == UpdateBill(s, IdParams(""), c.body).store
    ensures c.Create? ==> h.store == UpdateBill(s, IdParams(""), c.body).store
    ensures c.Create? && c.body.Fields? ==> Status(h.response) == StatusCreated
    ensures c.Update? && c.body.Fields? ==> Status(h.response) == StatusOK
    ensures c.Remove? ==> h.store.Keys == s.Keys - {c.id} && h.response == OkEmpty
  {
    match c
    case FindAll => FindAllBills(s)
    case Find(id) => FindBill(s, IdParams(id))
    case Update(id, body) => UpdateBill(s, IdParams(id), body)
    case Create(body) => CreateBill(s, CreateRouteParams, body)
    case Remove(id) => RemoveBill(s, IdParams(id))
  }

  /** The final store and the responses of a sequence of requests. */
  datatype Session = Session(store: Store, responses: seq<Response>)

  /** Handle requests in order, each against the store the previous one left. */
  function Run(s: Store, calls: seq<Call>): (r: Session)
    ensures |r.responses| == |calls|
    ensures |calls| == 0 ==> r.store == s
    ensures |calls| > 0 ==> r.responses[0] == Serve(s, calls[0]).response
    decreases |calls|
  {
    if |calls| == 0 then Session(s, [])
    else
      var h := Serve(s, calls[0]);
      var rest := Run(h.store, calls[1..]);
      Session(rest.store, [h.response] + rest.responses)
  }

  /**
    Handling `a` then `b` is handling `b` against the store `a` left: the
    final store is the one `b` leaves, and the responses are `a`'s followed
    by `b`'s.
   */
  lemma {:induction false} RunAppend(s: Store, a: seq<Call>, b: seq<Call>)
    ensures var first := Run(s, a);
      var second := Run(first.store, b);
      Run(s, a + b) == Session(second.store, first.responses + second.responses)
    decreases |a|
  {
    if |a| == 0 {
      assert a + b == b;
    } else {
      assert (a + b)[1..] == a[1..] + b;
      RunAppend(Serve(s, a[0]).store, a[1..], b);
    }
  }

  /** The response to request `i` is computed against the store the first `i` requests left. */
  lemma RunStep(s: Store, calls: seq<Call>, i: nat)
    requires i < |calls|
    ensures var before := Run(s, calls[..i]).store;
      && Run(s, calls).responses[i] == Serve(before, calls[i]).response
      && Run(s, calls[..i+1]).store == Serve(before, calls[i]).store
  {
    var before := Run(s, calls[..i]);
    assert calls == calls[..i] + calls[i..];
    RunAppend(s, calls[..i], calls[i..]);
    assert calls[..i+1] == calls[..i] + [calls[i]];
    RunAppend(s, calls[..i], [calls[i]]);
    assert [calls[i]][1..] == [];
  }

  /** The key a request may store a bill under, if it writes one. */
  function WrittenKey(c: Call): (key: Option<string>)
  {
    match c
    case Update(_, body) =>
      (match ReadEntity(ZeroBill, body) case Success(b) => Some(b.id) case Failure(_) => None)
    case Create(body) =>
      (match ReadEntity(ZeroBill, body) case Success(b) => Some(b.id) case Failure(_) => None)
    case _ => None
  }

  /** A single request keeps every bill stored under its own identifier. */
  lemma ServeKeepsKeysMatchIds(s: Store, c: Call)
    requires KeysMatchIds(s)
    ensures KeysMatchIds(Serve(s, c).store)
  {
  }

  /** Any sequence of requests keeps every bill stored under its own identifier. */
  lemma {:induction false} RunKeepsKeysMatchIds(s: Store, calls: seq<Call>)
    requires KeysMatchIds(s)
    ensures KeysMatchIds(Run(s, calls).store)
    decreases |calls|
  {
    if |calls| > 0 {
      ServeKeepsKeysMatchIds(s, calls[0]);
      RunKeepsKeysMatchIds(Serve(s, calls[0]).store, calls[1..]);
    }
  }

  /** Starting from the empty store, every stored bill sits under its own identifier. */
  lemma FreshServiceKeysMatchIds(calls: seq<Call>)
    ensures KeysMatchIds(Run(EmptyStore, calls).store)
  {
    RunKeepsKeysMatchIds(EmptyStore, calls);
  }

  /** A request that writes nothing under `id` leaves `id` absent if it was absent. */
  lemma ServeKeepsAbsent(s: Store, c: Call, id: string)
    requires id !in s
    requires WrittenKey(c) != Some(id)
    ensures id !in Serve(s, c).store
  {
  }

  /** A key that no request of a sequence writes stays absent. */
  lemma {:induction false} RunKeepsAbsent(s: Store, calls: seq<Call>, id: string)
    requires id !in s
    requires forall i :: 0 <= i < |calls| ==> WrittenKey(calls[i]) != Some(id)
    ensures id !in Run(s, calls).store
    decreases |calls|
  {
    if |calls| > 0 {
      ServeKeepsAbsent(s, calls[0], id);
      RunKeepsAbsent(Serve(s, calls[0]).store, calls[1..], id);
    }
  }

  /** Looking up an identifier that no request ever wrote answers 404. */
  lemma NeverWrittenNotFound(calls: seq<Call>, id: string)
    requires forall i :: 0 <= i < |calls| ==> WrittenKey(calls[i]) != Some(id)
    ensures FindBill(Run(EmptyStore, calls).store, IdParams(id)).response == NotFound(BillNotFound)
  {
    RunKeepsAbsent(EmptyStore, calls, id);
  }

  /**
    From the empty store, the listing and the single-bill lookup agree on every
    non-empty identifier: it is listed exactly when the lookup finds it.
   */
  lemma ListMatchesFind(calls: seq<Call>, id: string)
    requires id != ""
    ensures var s := Run(EmptyStore, calls).store;
      id in FindAllBills(s).response.bills <==> FindBill(s, IdParams(id)).response.Ok?
  {
    FreshServiceKeysMatchIds(calls);
  }

  /**
    The one exception to the agreement above: a create whose body leaves out
    the identifier stores a bill under key "", which the listing shows and the
    lookup of "" does not find.
   */
  lemma EmptyKeyListedButNotFound(name: string)
    ensures var s := Run(EmptyStore, [Create(Fields(None, Some(name)))]).store;
      && "" in FindAllBills(s).response.bills
      && FindBill(s, IdParams("")).response == NotFound(BillNotFound)
  {
  }

  /**
    Create bill 1, fetch it, rename it with an update, delete it, fetch it again:
    201, 200, 200 with the new name, 200 with no body, then 404.
   */
  lemma BillLifecycle()
    ensures Run(EmptyStore, [
        Create(Fields(Some("1"), Some("Melissa"))),
        Find("1"),
        Update("1", Fields(Some("1"), Some("Melissa Raspberry"))),
        Remove("1"),
        Find("1")
      ]) == Session(map[], [
        Created(Bill("1", "Melissa")),
        Ok(Bill("1", "Melissa")),
        Ok(Bill("1", "Melissa Raspberry")),
        OkEmpty,
        NotFound(BillNotFound)
      ])
  {
    var calls := [
        Create(Fields(Some("1"), Some("Melissa"))),
        Find("1"),
        Update("1", Fields(Some("1"), Some("Melissa Raspberry"))),
        Remove("1"),
        Find("1")
      ];
    var s1 := map["1" := Bill("1", "Melissa")];
    var s3 := map["1" := Bill("1", "Melissa Raspberry")];
    var s4: Store := map[];
    assert Run(s4, calls[4..]) == Session(s4, [NotFound(BillNotFound)]);
    assert Run(s3, calls[3..]) == Session(s4, [OkEmpty, NotFound(BillNotFound)]);
    assert Run(s1, calls[2..]).responses[0] == Ok(Bill("1", "Melissa Raspberry"));
    assert Run(s1, calls[1..]).responses[0] == Ok(Bill("1", "Melissa"));
  }
}
