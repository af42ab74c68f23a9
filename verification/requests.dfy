/**
  The parts of an inbound request the handlers look at: the path parameters
  matched by the route, and the body as the framework decodes it.
 */
module Requests {
  import opened Wrappers
  import opened Bills

  /** The name of the route variable in `/bills/{bill-id}`. */
  const BillIdParam := "bill-id"

  /** Path parameters bound by the matched route. */
  type PathParams = map<string, string>

  /** `request.PathParameter(name)`: the bound value, or "" when the route binds no such name. */
  function PathParameter(params: PathParams, name: string): (v: string)
    ensures name !in params ==> v == ""
    ensures name in params ==> v == params[name]
  {
    if name in params then params[name] else ""
  }

  /**
    A request body after JSON/XML decoding: either the decoder failed, or the
    body carried each of the two fields of a bill or left it out.
   */
  datatype Body = Malformed(error: string) | Fields(id: Option<string>, name: Option<string>)

  /** A body that carries both fields. */
  function FullBody(b: Bill): (body: Body)
  {
    Fields(Some(b.id), Some(b.name))
  }

  /**
    `request.ReadEntity(&v)` with `v` holding `init`: decoding overwrites the
    fields present in the body and leaves the others at their prior value.
   */
  function ReadEntity(init: Bill, body: Body): (r: Result<Bill, string>)
    ensures r.Failure? <==> body.Malformed?
    ensures r.Failure? ==> r.error == body.error
    ensures r.Success? && body.id.Some? ==> r.value.id == body.id.value
    ensures r.Success? && body.id.None? ==> r.value.id == init.id
    ensures r.Success? && body.name.Some? ==> r.value.name == body.name.value
    ensures r.Success? && body.name.None? ==> r.value.name == init.name
  {
    match body
    case Malformed(e) => Failure(e)
    case Fields(id, name) =>
      var newId := match id case Some(v) => v case None => init.id;
      var newName := match name case Some(v) => v case None => init.name;
      Success(Bill(newId, newName))
  }

  /** A body carrying both fields decodes to exactly that bill, whatever it is laid over. */
  lemma ReadFullBody(init: Bill, b: Bill)
    ensures ReadEntity(init, FullBody(b)) == Success(b)
  {
  }
}
