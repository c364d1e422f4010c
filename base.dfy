/** Shared vocabulary of the RPG front-end model: nullable values, decoded
    identities, abstract JSON values and the shape of an HTTP exchange as the
    screens see it. */
module Base {

  /** A nullable value: `None` stands for JavaScript's `null`/`undefined`. */
  datatype Option<+T> = None | Some(value: T)

  /** The toasts an optional toast contributes: none or one. */
  function AsSeq<T>(o: Option<T>): (r: seq<T>)
    ensures |r| <= 1
    ensures o.None? ==> r == []
    ensures o.Some? ==> r == [o.value]
  {
    match o
    case None => []
    case Some(v) => [v]
  }

  /** A JSON value the client never looks inside (a character's `atributos`).
      `JSON.parse` and `JSON.stringify` are passed to the model as functions
      over this type. */
  type Json(==, !new)

  /** The claims carried by a bearer token once `jwtDecode` has read them. */
  datatype Claims = Claims(usuarioId: int, nome_usuario: string, tipo_usuario: string)

  const AdminRole := "ADMIN"
  const PlayerRole := "JOGADOR"

  /** JavaScript truthiness of a nullable string: neither null nor "". */
  predicate Truthy(s: Option<string>)
  {
    s.Some? && s.value != ""
  }

  /** What `await response.json()` yields: a value of the expected shape, or
      the exception it throws (with that exception's message). */
  datatype Body<+T> = Parsed(value: T) | Malformed(message: string)

  /** The result of one `fetch`: it rejects with a network error, or it
      resolves with a status whose `ok` flag and body the screen inspects. */
  datatype Response<+T> = Rejected(message: string) | Reply(ok: bool, body: Body<T>)

  /** The error payload the API sends with a non-success status: `{ erro }`. */
  datatype ErrorBody = ErrorBody(erro: Option<string>)

  /** A list endpoint's payload: a JSON array, or any other JSON value. */
  datatype Payload<+T> = JsonArray(items: seq<T>) | NonArray

  datatype Method = GET | POST | PUT | DELETE

  /** The HTTP method and path of a request (the base URL is left out). */
  datatype Call = Call(verb: Method, path: string)

  /** A toast notification; only its text is modelled. */
  datatype Toast = SuccessToast(text: string) | ErrorToast(text: string)
}
