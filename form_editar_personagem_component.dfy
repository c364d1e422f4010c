/** The component version of the character edit form: it loads the
    character, the systems and the campaigns, preselects the character's
    first campaign, and sends the chosen campaign with the update. */
module FormEditarPersonagemComponent {
  import opened Base
  import opened Text
  import opened Entities
  import opened Http
  import opened Forms
  import opened Detail

  const LoginRequiredText := "Você precisa estar logado para editar um personagem."
  const NotFoundText := "Personagem não encontrado."
  const SistemasFailText := "Não foi possível carregar os sistemas."
  const CampanhasFailText := "Não foi possível carregar as campanhas."
  const InvalidJsonText := "O texto inserido no campo 'Atributos' não é um JSON válido."
  const UpdateFailText := "Falha ao atualizar personagem"
  const UpdatedText := "Personagem atualizado com sucesso!"

  /** A campaign link as this form reads it: `{ campanha_id }`. */
  datatype Vinculo = Vinculo(campanha_id: int)

  /** The character as this form reads it. */
  datatype PersonagemVinculado = PersonagemVinculado(
    nome: string, raca: Option<string>, descricao: Option<string>, sistema_id: int,
    atributos: Option<Json>, campanhas: Option<seq<Vinculo>>)

  /** An entry of the campaign select. */
  datatype CampanhaOpcao = CampanhaOpcao(id: int, nome: string)

  /** The form values written by `reset`: `atributos` is stringified
      unconditionally, so a null one becomes the text "null". */
  function Prefill(p: PersonagemVinculado, stringify: Json -> string): (f: PersonagemInputs)
    ensures f.nome == p.nome && f.raca == OrEmpty(p.raca) && f.descricao == OrEmpty(p.descricao)
    ensures f.sistema_id == IntDecimal(p.sistema_id)
    ensures p.atributos.None? ==> f.atributosJSON == "null"
    ensures p.atributos.Some? ==> f.atributosJSON == stringify(p.atributos.value)
  {
    PersonagemInputs(p.nome, OrEmpty(p.raca), OrEmpty(p.descricao), IntDecimal(p.sistema_id),
                     match p.atributos case Some(v) => stringify(v) case None => "null")
  }

  /** The preselected campaign: the first link's `campanha_id`, or null when
      the character has no links. */
  function FirstCampanha(p: PersonagemVinculado): (sel: Option<int>)
    ensures sel.Some? <==> p.campanhas.Some? && |p.campanhas.value| > 0
    ensures sel.Some? ==> sel.value == p.campanhas.value[0].campanha_id
  {
    if p.campanhas.Some? && |p.campanhas.value| > 0 then Some(p.campanhas.value[0].campanha_id) else None
  }

  /** The select's `onChange`: an empty value is null, any other value is
      `Number(value)` (a NaN is written as null in the request, so it is
      `None` here too). */
  function SelectCampanha(value: string): (sel: Option<int>)
    ensures value == "" ==> sel.None?
    ensures value != "" && ToNumber(value).Some? ==> sel == Some(ToNumber(value).value)
    ensures ToNumber(value).None? ==> sel.None?
  {
    if value == "" then None
    else match ToNumber(value)
      case Some(n) => Some(n)
      case None => None
  }

  /** The select's `value={selectedCampanhaId || ""}`. */
  function SelectValue(sel: Option<int>): (value: string)
    ensures sel.None? || sel == Some(0) ==> value == ""
    ensures sel.Some? && sel.value != 0 ==> value == IntDecimal(sel.value)
  {
    if sel.Some? && sel.value != 0 then IntDecimal(sel.value) else ""
  }

  /** Choosing a campaign's option selects that campaign's id. */
  lemma ChoosingAnOptionSelectsIt(c: CampanhaOpcao)
    requires c.id >= 0
    ensures SelectCampanha(IntDecimal(c.id)) == Some(c.id)
  {
    DecimalRoundTrip(c.id);
  }

  /** What the select shows reads back as the selection, for no campaign and
      for any positive id (an id of 0 is falsy and shows as no campaign). */
  lemma SelectShowsSelection(sel: Option<int>)
    requires sel.None? || sel.value > 0
    ensures SelectCampanha(SelectValue(sel)) == sel
  {
    if sel.Some? {
      DecimalRoundTrip(sel.value);
    }
  }

  datatype EditState = EditState(
    sistemas: seq<Sistema>, campanhas: seq<CampanhaOpcao>, loading: bool, error: Option<string>,
    selected: Option<int>, form: Option<PersonagemInputs>)

  const Initial := EditState([], [], true, None, None, None)

  /** The load effect. Without a truthy token it only sets the sign-in
      error and ends loading. Otherwise the character (only when the route
      has an id), the systems and the campaigns are read in turn; the first
      failure stops the chain and sets the error; loading always ends. */
  function Loaded(st: EditState, token: Option<string>, personagemId: Option<string>,
                  pers: Read<PersonagemVinculado>, sis: Read<seq<Sistema>>, camp: Read<seq<CampanhaOpcao>>,
                  stringify: Json -> string): (r: EditState)
    ensures !r.loading
    ensures !Truthy(token) ==> r == st.(error := Some(LoginRequiredText), loading := false)
    ensures Truthy(token) && Truthy(personagemId) && pers.Fault? ==>
              r == st.(error := Some(pers.message), loading := false)
    ensures Truthy(token) && (!Truthy(personagemId) || pers.Got?) ==>
              && r.form == (if Truthy(personagemId) then Some(Prefill(pers.value, stringify)) else st.form)
              && r.selected == (if Truthy(personagemId) then FirstCampanha(pers.value) else st.selected)
              && r.sistemas == (if sis.Got? then sis.value else st.sistemas)
              && r.campanhas == (if sis.Got? && camp.Got? then camp.value else st.campanhas)
              && r.error == (if sis.Fault? then Some(sis.message)
                             else if camp.Fault? then Some(camp.message)
                             else st.error)
  {
    if !Truthy(token) then st.(error := Some(LoginRequiredText), loading := false)
    else if Truthy(personagemId) && pers.Fault? then st.(error := Some(pers.message), loading := false)
    else
      var st1 := if Truthy(personagemId) then st.(form := Some(Prefill(pers.value, stringify)), selected := FirstCampanha(pers.value)) else st;
      match sis
      case Fault(m) => st1.(error := Some(m), loading := false)
      case Got(ss) =>
        match camp
        case Fault(m) => st1.(sistemas := ss, error := Some(m), loading := false)
        case Got(cs) => st1.(sistemas := ss, campanhas := cs, loading := false)
  }

  /** A loaded character preselects its first campaign and fills the form,
      whatever the later requests do. */
  lemma LoadedCharacterIsPrefilled(st: EditState, token: Option<string>, personagemId: Option<string>,
                                   p: PersonagemVinculado, sis: Read<seq<Sistema>>, camp: Read<seq<CampanhaOpcao>>,
                                   stringify: Json -> string)
    requires Truthy(token) && Truthy(personagemId)
    ensures Loaded(st, token, personagemId, Got(p), sis, camp, stringify).selected == FirstCampanha(p)
    ensures Loaded(st, token, personagemId, Got(p), sis, camp, stringify).form == Some(Prefill(p, stringify))
  {
  }

  /** From a fresh screen with a token, the form is shown exactly when every
      request made succeeded, and the options are then exactly what was
      fetched; a failure shows its own message. */
  lemma FormShownIffAllLoaded(token: Option<string>, personagemId: Option<string>,
                              pers: Read<PersonagemVinculado>, sis: Read<seq<Sistema>>, camp: Read<seq<CampanhaOpcao>>,
                              stringify: Json -> string)
    requires Truthy(token)
    ensures var r := Loaded(Initial, token, personagemId, pers, sis, camp, stringify);
      r.error.None? <==> (!Truthy(personagemId) || pers.Got?) && sis.Got? && camp.Got?
    ensures var r := Loaded(Initial, token, personagemId, pers, sis, camp, stringify);
      r.error.None? ==> r.sistemas == sis.value && r.campanhas == camp.value
    ensures var r := Loaded(Initial, token, personagemId, pers, sis, camp, stringify);
      Truthy(personagemId) && pers.Fault? ==> r.error == Some(pers.message) && r.form.None?
  {
  }

  class EditScreen {
    var sistemas: seq<Sistema>
    var campanhas: seq<CampanhaOpcao>
    var loading: bool
    var error: Option<string>
    var selected: Option<int>
    var form: Option<PersonagemInputs>

    function State(): EditState
      reads this
    {
      EditState(sistemas, campanhas, loading, error, selected, form)
    }

    constructor ()
      ensures State() == Initial
    {
      sistemas := [];
      campanhas := [];
      loading := true;
      error := None;
      selected := None;
      form := None;
    }

    /** The load effect as the screen runs it; it returns the GETs it sent. */
    method FetchData(token: Option<string>, personagemId: Option<string>,
                     persResp: Response<PersonagemVinculado>, sisResp: Response<seq<Sistema>>,
                     campResp: Response<seq<CampanhaOpcao>>, stringify: Json -> string)
      returns (calls: seq<Call>)
      modifies this
      ensures State() == Loaded(old(State()), token, personagemId, ReadBody(persResp, NotFoundText),
                                ReadBody(sisResp, SistemasFailText), ReadBody(campResp, CampanhasFailText), stringify)
      ensures !Truthy(token) ==> calls == []
      ensures Truthy(token) ==>
                var charOk := !Truthy(personagemId) || ReadBody(persResp, NotFoundText).Got?;
                calls == (if Truthy(personagemId) then [Call(GET, "/personagens/" + personagemId.value)] else [])
                       + (if charOk then [Call(GET, "/sistemas")] else [])
                       + (if charOk && ReadBody(sisResp, SistemasFailText).Got? then [Call(GET, "/campanhas")] else [])
    {
      calls := [];
      if !Truthy(token) {
        error := Some(LoginRequiredText);
        loading := false;
        return;
      }
      if Truthy(personagemId) {
        calls := [Call(GET, "/personagens/" + personagemId.value)];
        var pers := ReadBody(persResp, NotFoundText);
        if pers.Fault? {
          error := Some(pers.message);
          loading := false;
          return;
        }
        form := Some(Prefill(pers.value, stringify));
        selected := FirstCampanha(pers.value);
      }
      calls := calls + [Call(GET, "/sistemas")];
      var sis := ReadBody(sisResp, SistemasFailText);
      if sis.Fault? {
        error := Some(sis.message);
        loading := false;
        return;
      }
      sistemas := sis.value;
      calls := calls + [Call(GET, "/campanhas")];
      var camp := ReadBody(campResp, CampanhasFailText);
      if camp.Fault? {
        error := Some(camp.message);
      } else {
        campanhas := camp.value;
      }
      loading := false;
    }

    /** The select's `onChange`. */
    method OnSelectCampanha(value: string)
      modifies this
      ensures State() == old(State()).(selected := SelectCampanha(value))
    {
      selected := SelectCampanha(value);
    }
  }

  /** The update body: the character payload plus the selected campaign. */
  datatype UpdatePayload = UpdatePayload(personagem: PersonagemPayload, campanha_id: Option<int>)

  /** `atualizaPersonagem`: the JSON gate, then a PUT carrying the selected
      campaign; success goes to the character's sheet. */
  function AtualizaPersonagem(personagemId: Option<string>, data: PersonagemInputs, selected: Option<int>,
                              parse: string -> JsonParse, resp: Response<ErrorBody>): (e: Effects<UpdatePayload>)
    ensures ParseAtributos(data.atributosJSON, parse).InvalidJson? <==> e.request.None?
    ensures e.request.None? ==> e.toasts == [ErrorToast(InvalidJsonText)] && e.navigateTo.None?
    ensures e.request.Some? ==>
              e.request.value.call == Call(PUT, "/personagens/" + Segment(personagemId)) &&
              e.request.value.body == UpdatePayload(PayloadOf(data, ParseAtributos(data.atributosJSON, parse).value), selected)
    ensures e.request.Some? ==> (e.navigateTo.Some? <==> resp.Reply? && resp.ok)
    ensures e.navigateTo.Some? ==>
              e.navigateTo.value == "/personagem/" + Segment(personagemId) && e.toasts == [SuccessToast(UpdatedText)]
    ensures e.request.Some? && e.navigateTo.None? ==>
              e.toasts == [ErrorToast(SubmitOutcome(resp, UpdateFailText).message)]
  {
    SubmitPersonagem(Call(PUT, "/personagens/" + Segment(personagemId)), data, parse,
                     (p: PersonagemPayload) => UpdatePayload(p, selected),
                     resp, InvalidJsonText, UpdateFailText, UpdatedText, "/personagem/" + Segment(personagemId))
  }

  /** Unlike the routed edit form, a character with null `atributos`
      prefills the text "null", which parses back to null, so an untouched
      save still sends `atributos: null`. */
  lemma NullAtributosRoundTrip(p: PersonagemVinculado, personagemId: Option<string>, selected: Option<int>,
                               stringify: Json -> string, parse: string -> JsonParse, resp: Response<ErrorBody>)
    requires p.atributos.None? && parse("null") == JsonText(None)
    requires p.sistema_id >= 0
    ensures AtualizaPersonagem(personagemId, Prefill(p, stringify), selected, parse, resp).request ==
              Some(Sent(Call(PUT, "/personagens/" + Segment(personagemId)),
                        UpdatePayload(PersonagemPayload(p.nome, OrEmpty(p.raca), OrEmpty(p.descricao), Some(p.sistema_id), None), selected)))
  {
    DecimalRoundTrip(p.sistema_id);
  }
}
