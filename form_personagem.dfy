/** The character creation form. */
module FormPersonagem {
  import opened Base
  import opened Entities
  import opened Http
  import opened Forms

  const InvalidJsonText := "O texto inserido no campo 'Atributos' não é um JSON válido."
  const CreateFailText := "Falha ao criar personagem"
  const CreatedText := "Personagem criado com sucesso!"

  /** The system options: fetched only with a truthy token; only an ok reply
      with a readable body replaces them. The effect has no catch, so a
      rejected fetch or an unreadable body leaves them as they were too. */
  function SistemasAfterFetch(token: Option<string>, resp: Response<seq<Sistema>>, current: seq<Sistema>): (r: seq<Sistema>)
    ensures !Truthy(token) ==> r == current
    ensures Truthy(token) && resp.Reply? && resp.ok && resp.body.Parsed? ==> r == resp.body.value
    ensures !(resp.Reply? && resp.ok && resp.body.Parsed?) ==> r == current
  {
    if Truthy(token) && resp.Reply? && resp.ok && resp.body.Parsed? then resp.body.value else current
  }

  class FormPersonagemScreen {
    var sistemas: seq<Sistema>

    constructor ()
      ensures sistemas == []
    {
      sistemas := [];
    }

    /** `buscaSistemas`, run when the token changes. */
    method BuscaSistemas(token: Option<string>, resp: Response<seq<Sistema>>) returns (call: Option<Call>)
      modifies this
      ensures sistemas == SistemasAfterFetch(token, resp, old(sistemas))
      ensures call.Some? <==> Truthy(token)
      ensures call.Some? ==> call.value == Call(GET, "/sistemas")
    {
      call := None;
      if Truthy(token) {
        call := Some(Call(GET, "/sistemas"));
        if resp.Reply? && resp.ok && resp.body.Parsed? {
          sistemas := resp.body.value;
        }
      }
    }
  }

  /** A fresh form whose system request failed still offers no system. */
  lemma FailedFetchLeavesNoOptions(token: Option<string>, resp: Response<seq<Sistema>>)
    requires resp.Rejected? || !resp.ok
    ensures SistemasAfterFetch(token, resp, []) == []
  {
  }

  /** `criaPersonagem`: the JSON gate, then a POST of the payload to
      `/personagens`; success goes to "/". */
  function CriaPersonagem(data: PersonagemInputs, parse: string -> JsonParse, resp: Response<ErrorBody>): (e: Effects<PersonagemPayload>)
    ensures ParseAtributos(data.atributosJSON, parse).InvalidJson? <==> e.request.None?
    ensures e.request.None? ==> e.toasts == [ErrorToast(InvalidJsonText)] && e.navigateTo.None?
    ensures e.request.Some? ==>
              e.request.value.call == Call(POST, "/personagens") &&
              e.request.value.body == PayloadOf(data, ParseAtributos(data.atributosJSON, parse).value)
    ensures e.request.Some? ==> (e.navigateTo.Some? <==> resp.Reply? && resp.ok)
    ensures e.navigateTo.Some? ==> e.navigateTo.value == "/" && e.toasts == [SuccessToast(CreatedText)]
    ensures e.request.Some? && e.navigateTo.None? ==>
              e.toasts == [ErrorToast(SubmitOutcome(resp, CreateFailText).message)]
  {
    SubmitPersonagem(Call(POST, "/personagens"), data, parse, (p: PersonagemPayload) => p, resp,
                     InvalidJsonText, CreateFailText, CreatedText, "/")
  }

  /** A refused create reports the server's `erro` when it is a non-empty
      string and "Falha ao criar personagem" otherwise. */
  lemma CreateFailureMessage(data: PersonagemInputs, parse: string -> JsonParse, resp: Response<ErrorBody>, body: ErrorBody)
    requires ParseAtributos(data.atributosJSON, parse).Atributos?
    requires resp == Reply(false, Parsed(body))
    ensures CriaPersonagem(data, parse, resp).toasts ==
              [ErrorToast(if Truthy(body.erro) then body.erro.value else CreateFailText)]
    ensures CriaPersonagem(data, parse, resp).navigateTo.None?
  {
  }
}
