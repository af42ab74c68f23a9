/**
  The five route handlers of `BillService`, each a pure transition from the
  store before the request to the store after it plus the response written.
 */
module Handlers {
  import opened Wrappers
  import opened Bills
  import opened Requests
  import opened Responses

  /** The store after a request and what was written back. */
  datatype Handled = Handled(store: Store, response: Response)

  /** GET /bills: writes the whole store and changes nothing. */
  function FindAllBills(s: Store): (h: Handled)
    ensures h.store == s
    ensures h.response.OkAll? && h.response.bills == s
    ensures Status(h.response) == StatusOK
  {
    Handled(s, OkAll(s))
  }

  /**
    GET /bills/{bill-id}: the fetched bill, or 404 when its own identifier is
    empty (which is also what Go's zero value gives for an absent key).
   */
  function FindBill(s: Store, params: PathParams): (h: Handled)
    ensures h.store == s
    ensures var id := PathParameter(params, BillIdParam);
      h.response.Ok? <==> id in s && s[id].id != ""
    ensures var id := PathParameter(params, BillIdParam);
      h.response.Ok? ==> h.response.bill == s[id]
    ensures !h.response.Ok? ==> h.response == NotFound(BillNotFound)
  {
    var id := PathParameter(params, BillIdParam);
    var usr := Lookup(s, id);
    if |usr.id| == 0 then Handled(s, NotFound(BillNotFound))
    else Handled(s, Ok(usr))
  }

  /**
    PUT /bills/{bill-id}: decode the body over a zero bill and store the
    result under the identifier it carries; the path identifier is never read.
   */
  function UpdateBill(s: Store, params: PathParams, body: Body): (h: Handled)
    ensures body.Malformed? ==> h == Handled(s, ServerError(body.error))
    ensures body.Fields? ==>
      var b := Bill(match body.id case Some(v) => v case None => "",
                    match body.name case Some(v) => v case None => "");
      && h.store.Keys == s.Keys + {b.id}
      && h.store[b.id] == b
      && (forall k :: k in s && k != b.id ==> h.store[k] == s[k])
      && h.response == Ok(b)
  {
    match ReadEntity(ZeroBill, body)
    case Success(usr) => Handled(Save(s, usr), Ok(usr))
    case Failure(err) => Handled(s, ServerError(err))
  }

  /**
    PUT /bills: decode the body over a bill whose identifier is the path
    parameter `bill-id`, store it under its identifier and answer 201.
   */
  function CreateBill(s: Store, params: PathParams, body: Body): (h: Handled)
    ensures body.Malformed? ==> h == Handled(s, ServerError(body.error))
    ensures body.Fields? ==>
      var b := Bill(match body.id case Some(v) => v case None => PathParameter(params, BillIdParam),
                    match body.name case Some(v) => v case None => "");
      && h.store.Keys == s.Keys + {b.id}
      && h.store[b.id] == b
      && (forall k :: k in s && k != b.id ==> h.store[k] == s[k])
      && h.response == Created(b)
      && Status(h.response) == StatusCreated
  {
    var usr := Bill(PathParameter(params, BillIdParam), "");
    match ReadEntity(usr, body)
    case Success(b) => Handled(Save(s, b), Created(b))
    case Failure(err) => Handled(s, ServerError(err))
  }

  /** DELETE /bills/{bill-id}: remove that key, if present; nothing is written back. */
  function RemoveBill(s: Store, params: PathParams): (h: Handled)
    ensures h.store.Keys == s.Keys - {PathParameter(params, BillIdParam)}
    ensures forall k :: k in h.store ==> h.store[k] == s[k]
    ensures h.response == OkEmpty
  {
    Handled(Delete(s, PathParameter(params, BillIdParam)), OkEmpty)
  }

  /** The path parameters of a route that binds `bill-id` to `id`. */
  function IdParams(id: string): (p: PathParams)
    ensures PathParameter(p, BillIdParam) == id
  {
    map[BillIdParam := id]
  }

  // ---------------------------------------------------------------------------
  // Properties of single handlers
  // ---------------------------------------------------------------------------

  /** With keys matching identifiers, a lookup succeeds exactly for a present, non-empty key. */
  lemma FindOkIffPresent(s: Store, id: string)
    requires KeysMatchIds(s)
    ensures FindBill(s, IdParams(id)).response.Ok? <==> id in s && id != ""
    ensures FindBill(s, IdParams(id)).response.Ok? ==> FindBill(s, IdParams(id)).response.bill == s[id]
  {
  }

  /**
    With keys matching identifiers, looking up "" always answers 404, even when
    a bill with an empty identifier is stored under key "".
   */
  lemma FindEmptyIdNotFound(s: Store, params: PathParams)
    requires KeysMatchIds(s)
    requires PathParameter(params, BillIdParam) == ""
    ensures FindBill(s, params).response == NotFound(BillNotFound)
  {
  }

  /** The path identifier has no effect on an update. */
  lemma UpdateIgnoresPathId(s: Store, p: PathParams, q: PathParams, body: Body)
    ensures UpdateBill(s, p, body) == UpdateBill(s, q, body)
  {
  }

  /**
    An update replaces the whole bill: a field the body leaves out becomes
    empty, whatever the bill previously stored under that key held.
   */
  lemma UpdateReplacesNotMerges(s: Store, p: PathParams, id: string, name: string)
    requires id in s
    ensures UpdateBill(s, p, Fields(Some(id), None)).store[id] == Bill(id, "")
    ensures UpdateBill(s, p, Fields(None, Some(name))).store[""] == Bill("", name)
  {
  }

  /**
    After an update whose body decodes to `b`, looking up `id` gives `b` when
    `b` carries that (non-empty) identifier, and the old answer otherwise.
   */
  lemma FindAfterUpdate(s: Store, p: PathParams, b: Bill, id: string)
    ensures var s' := UpdateBill(s, p, FullBody(b)).store;
      b.id == id && id != "" ==> FindBill(s', IdParams(id)).response == Ok(b)
    ensures var s' := UpdateBill(s, p, FullBody(b)).store;
      b.id != id ==> FindBill(s', IdParams(id)).response == FindBill(s, IdParams(id)).response
  {
  }

  /** After creating a bill with a non-empty identifier, looking it up returns it. */
  lemma FindAfterCreate(s: Store, p: PathParams, b: Bill)
    requires b.id != ""
    ensures FindBill(CreateBill(s, p, FullBody(b)).store, IdParams(b.id)).response == Ok(b)
  {
  }

  /**
    On a route that binds no `bill-id`, a create stores the same bill as an
    update of the same body; only the status differs (201 against 200).
   */
  lemma CreateMatchesUpdateWithoutPathId(s: Store, p: PathParams, q: PathParams, body: Body)
    requires BillIdParam !in p
    ensures CreateBill(s, p, body).store == UpdateBill(s, q, body).store
    ensures body.Fields? ==> CreateBill(s, p, body).response.Created?
    ensures body.Fields? ==> CreateBill(s, p, body).response.bill == UpdateBill(s, q, body).response.bill
    ensures body.Malformed? ==> CreateBill(s, p, body).response == UpdateBill(s, q, body).response
  {
  }

  /** Removing twice leaves the same store as removing once. */
  lemma RemoveIdempotent(s: Store, params: PathParams)
    ensures var once := RemoveBill(s, params).store;
      RemoveBill(once, params).store == once
  {
  }

  /** Removing an absent key leaves the store as it was. */
  lemma RemoveAbsentIsNoOp(s: Store, params: PathParams)
    requires PathParameter(params, BillIdParam) !in s
    ensures RemoveBill(s, params).store == s
  {
  }

  /** After a removal, looking up the same identifier answers 404. */
  lemma FindAfterRemove(s: Store, params: PathParams)
    ensures FindBill(RemoveBill(s, params).store, params).response == NotFound(BillNotFound)
  {
  }

  /** Every handler keeps every bill stored under its own identifier. */
  lemma HandlersKeepKeysMatchIds(s: Store, p: PathParams, body: Body)
    requires KeysMatchIds(s)
    ensures KeysMatchIds(FindAllBills(s).store)
    ensures KeysMatchIds(FindBill(s, p).store)
    ensures KeysMatchIds(UpdateBill(s, p, body).store)
    ensures KeysMatchIds(CreateBill(s, p, body).store)
    ensures KeysMatchIds(RemoveBill(s, p).store)
  {
  }
}
