/** The two ways a screen turns a finished request into success or an error
    message: by the status alone, or by reading the `{ erro }` body of a
    non-success reply. */
module Http {
  import opened Base

  datatype Outcome = Done | Failed(message: string)

  /** `if (!response.ok) throw new Error(failText)`, caught and shown: a
      rejected fetch shows its own message. The body is not read. */
  function StatusOutcome<T>(resp: Response<T>, failText: string): (o: Outcome)
    ensures o == Done <==> resp.Reply? && resp.ok
    ensures resp.Rejected? ==> o == Failed(resp.message)
    ensures resp.Reply? && !resp.ok ==> o == Failed(failText)
  {
    match resp
    case Rejected(m) => Failed(m)
    case Reply(ok, _) => if ok then Done else Failed(failText)
  }

  /** `errorData.erro || fallback`: an absent or empty `erro` is falsy. */
  function ErroOr(body: ErrorBody, fallback: string): (m: string)
    ensures Truthy(body.erro) ==> m == body.erro.value
    ensures !Truthy(body.erro) ==> m == fallback
  {
    if Truthy(body.erro) then body.erro.value else fallback
  }

  /** The submit pattern of every form: an ok reply succeeds; a non-ok reply
      has its body read as `{ erro }` and fails with `erro` or the fallback;
      an unreadable error body or a rejected fetch fails with the message of
      the exception. */
  function SubmitOutcome(resp: Response<ErrorBody>, fallback: string): (o: Outcome)
    ensures o == Done <==> resp.Reply? && resp.ok
    ensures resp.Rejected? ==> o == Failed(resp.message)
    ensures resp.Reply? && !resp.ok && resp.body.Malformed? ==> o == Failed(resp.body.message)
    ensures resp.Reply? && !resp.ok && resp.body.Parsed? ==> o == Failed(ErroOr(resp.body.value, fallback))
  {
    match resp
    case Rejected(m) => Failed(m)
    case Reply(ok, body) =>
      if ok then Done
      else match body
        case Malformed(m) => Failed(m)
        case Parsed(e) => Failed(ErroOr(e, fallback))
  }

  /** The toast a finished submit raises on failure (success toasts are the
      caller's). */
  function FailureToast(o: Outcome): (t: Option<Toast>)
    ensures t.None? <==> o.Done?
    ensures o.Failed? ==> t == Some(ErrorToast(o.message))
  {
    match o
    case Done => None
    case Failed(m) => Some(ErrorToast(m))
  }

  /** A non-ok reply whose body carries no usable `erro` always reports the
      fallback text, and one that does always reports `erro`. */
  lemma SubmitMessageSource(resp: Response<ErrorBody>, fallback: string)
    requires resp.Reply? && !resp.ok && resp.body.Parsed?
    ensures SubmitOutcome(resp, fallback) ==
      Failed(if Truthy(resp.body.value.erro) then resp.body.value.erro.value else fallback)
  {
  }

  /** What a load step gets from a request: the body, or the message of the
      exception that ended the step. */
  datatype Read<+T> = Got(value: T) | Fault(message: string)

  /** The load pattern of the detail screens and forms:
      `if (!response.ok) throw new Error(failText); const data = await response.json();`.
      A rejected fetch and an unreadable body fail with their own messages. */
  function ReadBody<T>(resp: Response<T>, failText: string): (r: Read<T>)
    ensures r.Got? <==> resp.Reply? && resp.ok && resp.body.Parsed?
    ensures r.Got? ==> r.value == resp.body.value
    ensures resp.Rejected? ==> r == Fault(resp.message)
    ensures resp.Reply? && !resp.ok ==> r == Fault(failText)
    ensures resp.Reply? && resp.ok && resp.body.Malformed? ==> r == Fault(resp.body.message)
  {
    match resp
    case Rejected(m) => Fault(m)
    case Reply(ok, body) =>
      if !ok then Fault(failText)
      else match body
        case Parsed(v) => Got(v)
        case Malformed(m) => Fault(m)
  }

  /** A route parameter written into a path by a template literal: a missing
      parameter is written as "undefined". */
  function Segment(param: Option<string>): (s: string)
    ensures param.Some? ==> s == param.value
    ensures param.None? ==> s == "undefined"
  {
    match param
    case Some(v) => v
    case None => "undefined"
  }
}
