/** The two ways the binaries' HTTP handlers turn a service outcome into a
    reply: an acknowledgement body (`success`, `error`) for commands, and a
    body or status 500 for queries.
 */
module Http {
  import opened Types

  /** The `{ success, error }` body shared by the command handlers. */
  datatype Ack = Ack(success: bool, error: Option<string>)

  /** `Ok(_)` becomes success without a message, `Err(e)` failure carrying
      `e.to_string()`. */
  function Acknowledge(outcome: Result<()>): (a: Ack)
    ensures a.success <==> outcome.Ok?
    ensures a.error.None? <==> a.success
    ensures outcome.Err? ==> a.error == Some(outcome.error)
  {
    match outcome
    case Ok(_) => Ack(true, None)
    case Err(e) => Ack(false, Some(e))
  }

  /** The acknowledgement loses nothing: the outcome can be read back. */
  lemma AcknowledgeInjective(x: Result<()>, y: Result<()>)
    requires Acknowledge(x) == Acknowledge(y)
    ensures x == y
  {
    if x.Ok? {
      assert x == Ok(()) by { match x.value { case () => } }
      assert y == Ok(()) by { match y.value { case () => } }
    }
  }

  const INTERNAL_SERVER_ERROR: nat := 500

  /** `Result<Json<T>, StatusCode>`. */
  datatype Reply<T> = Body(value: T) | Status(code: nat)

  /** `map_err(|_| StatusCode::INTERNAL_SERVER_ERROR)`: the value on
      success, status 500 on any error. */
  function ReplyFor<T>(outcome: Result<T>): (r: Reply<T>)
    ensures r.Body? <==> outcome.Ok?
    ensures outcome.Ok? ==> r.value == outcome.value
    ensures outcome.Err? ==> r == Status(INTERNAL_SERVER_ERROR)
  {
    match outcome
    case Ok(v) => Body(v)
    case Err(_) => Status(INTERNAL_SERVER_ERROR)
  }
}
