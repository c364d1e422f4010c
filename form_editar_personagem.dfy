/** The routed character edit form: prefilled from the character, saved
    with a PUT. */
module FormEditarPersonagem {
  import opened Base
  import opened Text
  import opened Entities
  import opened Http
  import opened Forms

  const LoadFailText := "Falha ao carregar dados do personagem."
  const InvalidJsonText := "O texto no campo 'Atributos' não é um JSON válido."
  const SaveFailText := "Falha ao salvar alterações."
  const SavedText := "Personagem atualizado com sucesso!"

  /** The form values `reset` writes from a fetched character: the record's
      own fields, the system id as the select shows it, and `atributos`
      stringified when present, else the empty text. */
  function Prefill(p: Personagem, stringify: Json -> string): (f: PersonagemInputs)
    ensures f.nome == p.nome && f.raca == OrEmpty(p.raca) && f.descricao == OrEmpty(p.descricao)
    ensures f.sistema_id == IntDecimal(p.sistema_id)
    ensures p.atributos.None? ==> f.atributosJSON == ""
    ensures p.atributos.Some? ==> f.atributosJSON == stringify(p.atributos.value)
  {
    PersonagemInputs(p.nome, OrEmpty(p.raca), OrEmpty(p.descricao), IntDecimal(p.sistema_id),
                     match p.atributos case Some(v) => stringify(v) case None => "")
  }

  /** What the load effect does: the GET it sends, the values it resets the
      form to, and the toast of a failure. */
  datatype PrefillLoad = PrefillLoad(call: Option<Call>, reset: Option<PersonagemInputs>, toast: Option<Toast>)

  /** `carregarDados`, run only with a truthy token and character id. */
  function CarregarDados(token: Option<string>, personagemId: Option<string>, resp: Response<Personagem>,
                         stringify: Json -> string): (l: PrefillLoad)
    ensures l.call.Some? <==> Truthy(token) && Truthy(personagemId)
    ensures l.call.Some? ==> l.call.value == Call(GET, "/personagens/" + personagemId.value)
    ensures l.call.None? ==> l.reset.None? && l.toast.None?
    ensures l.reset.Some? <==> l.call.Some? && ReadBody(resp, LoadFailText).Got?
    ensures l.reset.Some? ==> l.reset.value == Prefill(ReadBody(resp, LoadFailText).value, stringify) && l.toast.None?
    ensures l.call.Some? && l.reset.None? ==> l.toast == Some(ErrorToast(ReadBody(resp, LoadFailText).message))
  {
    if Truthy(token) && Truthy(personagemId) then
      var call := Some(Call(GET, "/personagens/" + personagemId.value));
      match ReadBody(resp, LoadFailText)
      case Got(p) => PrefillLoad(call, Some(Prefill(p, stringify)), None)
      case Fault(m) => PrefillLoad(call, None, Some(ErrorToast(m)))
    else
      PrefillLoad(None, None, None)
  }

  /** `salvaAlteracoes`: the JSON gate, then a PUT to the character's path;
      success goes back to its sheet. */
  function SalvaAlteracoes(personagemId: Option<string>, data: PersonagemInputs, parse: string -> JsonParse,
                           resp: Response<ErrorBody>): (e: Effects<PersonagemPayload>)
    ensures ParseAtributos(data.atributosJSON, parse).InvalidJson? <==> e.request.None?
    ensures e.request.None? ==> e.toasts == [ErrorToast(InvalidJsonText)] && e.navigateTo.None?
    ensures e.request.Some? ==>
              e.request.value.call == Call(PUT, "/personagens/" + Segment(personagemId)) &&
              e.request.value.body == PayloadOf(data, ParseAtributos(data.atributosJSON, parse).value)
    ensures e.request.Some? ==> (e.navigateTo.Some? <==> resp.Reply? && resp.ok)
    ensures e.navigateTo.Some? ==>
              e.navigateTo.value == "/personagem/" + Segment(personagemId) && e.toasts == [SuccessToast(SavedText)]
    ensures e.request.Some? && e.navigateTo.None? ==>
              e.toasts == [ErrorToast(SubmitOutcome(resp, SaveFailText).message)]
  {
    SubmitPersonagem(Call(PUT, "/personagens/" + Segment(personagemId)), data, parse, (p: PersonagemPayload) => p,
                     resp, InvalidJsonText, SaveFailText, SavedText, "/personagem/" + Segment(personagemId))
  }

  /** Saving an untouched prefilled form sends the character back as it was
      loaded: same texts (null ones as ""), the same system id, and the same
      `atributos`, provided `JSON.parse` reads back what `JSON.stringify`
      wrote and never gets an empty text from it. */
  lemma PrefillSubmitRoundTrip(p: Personagem, personagemId: Option<string>, stringify: Json -> string,
                               parse: string -> JsonParse, resp: Response<ErrorBody>)
    requires p.sistema_id >= 0
    requires p.atributos.Some? ==>
               stringify(p.atributos.value) != "" && parse(stringify(p.atributos.value)) == JsonText(p.atributos)
    ensures SalvaAlteracoes(personagemId, Prefill(p, stringify), parse, resp).request ==
              Some(Sent(Call(PUT, "/personagens/" + Segment(personagemId)),
                        PersonagemPayload(p.nome, OrEmpty(p.raca), OrEmpty(p.descricao), Some(p.sistema_id), p.atributos)))
  {
    DecimalRoundTrip(p.sistema_id);
  }
}
