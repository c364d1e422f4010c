/** What the create and edit forms share: the `atributos` JSON gate, the
    character payload, and the effects of one submit. */
module Forms {
  import opened Base
  import opened Text
  import opened Http

  /** What `JSON.parse` does with a text: throws a syntax error, or yields a
      value; the literal `null` yields `None`. */
  datatype JsonParse = SyntaxError | JsonText(value: Option<Json>)

  /** The outcome of the gate: the `atributos` to send, or the invalid-JSON
      stop. */
  datatype AtributosGate = Atributos(value: Option<Json>) | InvalidJson

  /** `if (data.atributosJSON) atributosObjeto = JSON.parse(data.atributosJSON)`,
      with the syntax error caught: an empty text is null without parsing. */
  function ParseAtributos(text: string, parse: string -> JsonParse): (g: AtributosGate)
    ensures text == "" ==> g == Atributos(None)
    ensures g.InvalidJson? <==> text != "" && parse(text).SyntaxError?
    ensures text != "" && parse(text).JsonText? ==> g == Atributos(parse(text).value)
  {
    if text == "" then Atributos(None)
    else match parse(text)
      case SyntaxError => InvalidJson
      case JsonText(v) => Atributos(v)
  }

  /** The character form's fields, as strings; `sistema_id` is the selected
      option's value. */
  datatype PersonagemInputs = PersonagemInputs(nome: string, raca: string, descricao: string,
                                               sistema_id: string, atributosJSON: string)

  /** The body of a character create or update. `sistema_id` is `None` when
      `Number()` gives NaN (which `JSON.stringify` writes as null). */
  datatype PersonagemPayload = PersonagemPayload(nome: string, raca: string, descricao: string,
                                                 sistema_id: Option<nat>, atributos: Option<Json>)

  /** `{ nome, raca, descricao, sistema_id: Number(data.sistema_id), atributos }`. */
  function PayloadOf(data: PersonagemInputs, atributos: Option<Json>): (p: PersonagemPayload)
    ensures p.nome == data.nome && p.raca == data.raca && p.descricao == data.descricao
    ensures p.atributos == atributos
    ensures p.sistema_id == ToNumber(data.sistema_id)
  {
    PersonagemPayload(data.nome, data.raca, data.descricao, ToNumber(data.sistema_id), atributos)
  }

  /** `value || ""` for a nullable text field. */
  function OrEmpty(o: Option<string>): (s: string)
    ensures o.None? ==> s == ""
    ensures o.Some? ==> s == o.value
  {
    match o
    case None => ""
    case Some(v) => v
  }

  /** A request that was sent, with its body. */
  datatype Sent<+P> = Sent(call: Call, body: P)

  /** Everything one submit does that the model observes. */
  datatype Effects<+P> = Effects(request: Option<Sent<P>>, toasts: seq<Toast>, navigateTo: Option<string>)

  /** The tail every form's submit shares once its body is built: send it;
      an ok reply raises the success toast and navigates, any other outcome
      raises one error toast (the `erro` of the reply, the fallback, or the
      exception's message) and stays. */
  function Submitted<P>(call: Call, body: P, resp: Response<ErrorBody>,
                        fallback: string, successText: string, target: string): (e: Effects<P>)
    ensures e.request == Some(Sent(call, body))
    ensures e.navigateTo.Some? <==> resp.Reply? && resp.ok
    ensures e.navigateTo.Some? ==> e.navigateTo.value == target && e.toasts == [SuccessToast(successText)]
    ensures e.navigateTo.None? ==> e.toasts == [ErrorToast(SubmitOutcome(resp, fallback).message)]
  {
    match SubmitOutcome(resp, fallback)
    case Done => Effects(Some(Sent(call, body)), [SuccessToast(successText)], Some(target))
    case Failed(m) => Effects(Some(Sent(call, body)), [ErrorToast(m)], None)
  }

  /** A character submit: the JSON gate, then the shared tail. */
  function SubmitPersonagem<P>(call: Call, data: PersonagemInputs, parse: string -> JsonParse,
                               build: PersonagemPayload -> P, resp: Response<ErrorBody>,
                               invalidText: string, fallback: string, successText: string, target: string): (e: Effects<P>)
    ensures ParseAtributos(data.atributosJSON, parse).InvalidJson? ==>
              e == Effects(None, [ErrorToast(invalidText)], None)
    ensures ParseAtributos(data.atributosJSON, parse).Atributos? ==>
              e == Submitted(call, build(PayloadOf(data, ParseAtributos(data.atributosJSON, parse).value)),
                             resp, fallback, successText, target)
  {
    match ParseAtributos(data.atributosJSON, parse)
    case InvalidJson => Effects(None, [ErrorToast(invalidText)], None)
    case Atributos(a) => Submitted(call, build(PayloadOf(data, a)), resp, fallback, successText, target)
  }

  /** Invalid JSON in a non-empty `atributosJSON` stops the submit: one
      error toast, no request, no navigation. */
  lemma InvalidJsonSendsNothing<P>(call: Call, data: PersonagemInputs, parse: string -> JsonParse,
                                   build: PersonagemPayload -> P, resp: Response<ErrorBody>,
                                   invalidText: string, fallback: string, successText: string, target: string)
    requires data.atributosJSON != "" && parse(data.atributosJSON).SyntaxError?
    ensures var e := SubmitPersonagem(call, data, parse, build, resp, invalidText, fallback, successText, target);
      e.request.None? && e.navigateTo.None? && e.toasts == [ErrorToast(invalidText)]
  {
  }

  /** Any `atributosJSON` that is empty or parses lets the request go out,
      with the parsed value (null for the empty text) as `atributos`. */
  lemma ValidJsonIsSent<P>(call: Call, data: PersonagemInputs, parse: string -> JsonParse,
                           build: PersonagemPayload -> P, resp: Response<ErrorBody>,
                           invalidText: string, fallback: string, successText: string, target: string)
    requires data.atributosJSON == "" || parse(data.atributosJSON).JsonText?
    ensures var e := SubmitPersonagem(call, data, parse, build, resp, invalidText, fallback, successText, target);
      e.request.Some? && e.request.value.call == call &&
      e.request.value.body == build(PayloadOf(data, if data.atributosJSON == "" then None else parse(data.atributosJSON).value))
  {
  }
}
