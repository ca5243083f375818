/**
 * The operation tokens a data factory declares and what each one selects in the
 * static route binder: the router verb and, for the four writing operations, the
 * status a successful call leaves on the response.
 */
module Operations {
  import opened Wrappers

  datatype Verb = GET | POST | PUT | DELETE

  /** The operations the binder recognises; any other token binds nothing. */
  datatype Operation = Create | Update | Replace | Read | Delete

  /** The token a factory carries in its `operation` field for each operation. */
  function Token(op: Operation): string
  {
    match op
    case Create => "create"
    case Update => "update"
    case Replace => "replace"
    case Read => "read"
    case Delete => "delete"
  }

  /** Recognises an operation token by strict string equality; the inverse of `Token`. */
  function ParseOperation(token: string): (r: Option<Operation>)
    ensures r.Some? ==> Token(r.value) == token
  {
    if token == "create" then Some(Create)
    else if token == "update" then Some(Update)
    else if token == "replace" then Some(Replace)
    else if token == "read" then Some(Read)
    else if token == "delete" then Some(Delete)
    else None
  }

  /** The router method the binder registers a handler of this operation with. */
  function VerbOf(op: Operation): Verb
  {
    match op
    case Create => POST
    case Update => POST
    case Replace => PUT
    case Read => GET
    case Delete => DELETE
  }

  /** The status a successful call sets; a read handler sets none. */
  function SuccessStatus(op: Operation): Option<int>
  {
    match op
    case Create => Some(201)
    case Update => Some(200)
    case Replace => Some(200)
    case Read => None
    case Delete => Some(204)
  }

  /** The status every writing handler sets when the factory call throws. */
  const FailureStatus: int := 500

  /** Every operation's own token is recognised as that operation, so a token no operation has is the only one rejected. */
  lemma ParseOperationComplete(op: Operation)
    ensures ParseOperation(Token(op)) == Some(op)
  {
  }

  /** Token-level verb table: which tokens register a route, and with which verb. */
  lemma TokenVerbTable(token: string)
    ensures ParseOperation(token).Some? <==> token in {"create", "update", "replace", "read", "delete"}
    ensures ParseOperation(token).Some? ==>
      (VerbOf(ParseOperation(token).value) == POST <==> token == "create" || token == "update")
    ensures ParseOperation(token).Some? ==>
      (VerbOf(ParseOperation(token).value) == PUT <==> token == "replace")
    ensures ParseOperation(token).Some? ==>
      (VerbOf(ParseOperation(token).value) == GET <==> token == "read")
    ensures ParseOperation(token).Some? ==>
      (VerbOf(ParseOperation(token).value) == DELETE <==> token == "delete")
  {
  }
}
