/** The campaign form, in create mode (no route id) or edit mode. */
module FormCampanha {
  import opened Base
  import opened Text
  import opened Entities
  import opened Http
  import opened Forms

  const LoadFailText := "Falha ao carregar dados da campanha."
  const SaveFailText := "Falha ao salvar a campanha."
  const UpdatedText := "Campanha atualizada com sucesso!"
  const CreatedText := "Campanha criada com sucesso!"

  /** `Boolean(id)`: a route id that is present and non-empty. */
  predicate IsEditing(id: Option<string>)
  {
    Truthy(id)
  }

  /** The URL and method of a save: PUT to the campaign in edit mode, POST
      to the collection otherwise. */
  function Target(id: Option<string>): (c: Call)
    ensures IsEditing(id) ==> c == Call(PUT, "/campanhas/" + id.value)
    ensures !IsEditing(id) ==> c == Call(POST, "/campanhas")
  {
    if IsEditing(id) then Call(PUT, "/campanhas/" + id.value) else Call(POST, "/campanhas")
  }

  datatype CampanhaInputs = CampanhaInputs(nome: string, descricao: string, mestre_do_jogo: string,
                                           data_inicio: string, sistema_id: string)

  /** The body of a save. `data_inicio` is null for an empty date and the
      date otherwise (kept as its text); `sistema_id` is `None` for a NaN. */
  datatype CampanhaPayload = CampanhaPayload(nome: string, descricao: string, mestre_do_jogo: string,
                                             data_inicio: Option<string>, sistema_id: Option<nat>)

  /** `{ ...data, sistema_id: Number(data.sistema_id), data_inicio: data.data_inicio ? new Date(…) : null }`. */
  function PayloadOf(data: CampanhaInputs): (p: CampanhaPayload)
    ensures p.nome == data.nome && p.descricao == data.descricao && p.mestre_do_jogo == data.mestre_do_jogo
    ensures p.sistema_id == ToNumber(data.sistema_id)
    ensures p.data_inicio.None? <==> data.data_inicio == ""
    ensures p.data_inicio.Some? ==> p.data_inicio.value == data.data_inicio
  {
    CampanhaPayload(data.nome, data.descricao, data.mestre_do_jogo,
                    if data.data_inicio == "" then None else Some(data.data_inicio),
                    ToNumber(data.sistema_id))
  }

  /** `onSubmit`: both modes return to the campaign list on success; the
      success text names the mode. */
  function OnSubmit(id: Option<string>, data: CampanhaInputs, resp: Response<ErrorBody>): (e: Effects<CampanhaPayload>)
    ensures e.request == Some(Sent(Target(id), PayloadOf(data)))
    ensures e.navigateTo.Some? <==> resp.Reply? && resp.ok
    ensures e.navigateTo.Some? ==>
              e.navigateTo.value == "/campanhas" &&
              e.toasts == [SuccessToast(if IsEditing(id) then UpdatedText else CreatedText)]
    ensures e.navigateTo.None? ==> e.toasts == [ErrorToast(SubmitOutcome(resp, SaveFailText).message)]
  {
    Submitted(Target(id), PayloadOf(data), resp, SaveFailText,
              if IsEditing(id) then UpdatedText else CreatedText, "/campanhas")
  }

  /** Whatever the mode, the same form data sends the same body; only the
      target differs. */
  lemma ModesSendSameBody(id1: Option<string>, id2: Option<string>, data: CampanhaInputs,
                          resp1: Response<ErrorBody>, resp2: Response<ErrorBody>)
    ensures OnSubmit(id1, data, resp1).request.value.body == OnSubmit(id2, data, resp2).request.value.body
    ensures IsEditing(id1) != IsEditing(id2) ==>
              OnSubmit(id1, data, resp1).request.value.call.verb != OnSubmit(id2, data, resp2).request.value.call.verb
  {
  }

  /** The systems step of the load: a non-ok reply is skipped (`Got(None)`),
      an ok reply yields its list, and a rejected fetch or an unreadable body
      throws into the catch. */
  function SistemasStep(resp: Response<seq<Sistema>>): (r: Read<Option<seq<Sistema>>>)
    ensures resp.Reply? && !resp.ok ==> r == Got(None)
    ensures resp.Reply? && resp.ok && resp.body.Parsed? ==> r == Got(Some(resp.body.value))
    ensures resp.Rejected? ==> r == Fault(resp.message)
    ensures resp.Reply? && resp.ok && resp.body.Malformed? ==> r == Fault(resp.body.message)
  {
    match resp
    case Rejected(m) => Fault(m)
    case Reply(ok, body) =>
      if !ok then Got(None)
      else match body
        case Parsed(v) => Got(Some(v))
        case Malformed(m) => Fault(m)
  }

  class FormCampanhaScreen {
    var sistemas: seq<Sistema>
    /** The campaign the form was last reset with, if any. */
    var prefill: Option<Campanha>

    constructor ()
      ensures sistemas == [] && prefill.None?
    {
      sistemas := [];
      prefill := None;
    }

    /** `carregarDados`, run only with a truthy token: the systems, then,
        in edit mode only, the campaign to prefill. */
    method CarregarDados(token: Option<string>, id: Option<string>,
                         sisResp: Response<seq<Sistema>>, campResp: Response<Campanha>)
      returns (calls: seq<Call>, toast: Option<Toast>)
      modifies this
      ensures !Truthy(token) ==> calls == [] && toast.None? && sistemas == old(sistemas) && prefill == old(prefill)
      ensures Truthy(token) ==>
                var step := SistemasStep(sisResp);
                var camp := ReadBody(campResp, LoadFailText);
                && sistemas == (if step.Got? && step.value.Some? then step.value.value else old(sistemas))
                && calls == [Call(GET, "/sistemas")] +
                            (if step.Got? && IsEditing(id) then [Call(GET, "/campanhas/" + id.value)] else [])
                && prefill == (if step.Got? && IsEditing(id) && camp.Got? then Some(camp.value) else old(prefill))
                && toast == (if step.Fault? then Some(ErrorToast(step.message))
                             else if IsEditing(id) && camp.Fault? then Some(ErrorToast(camp.message))
                             else None)
    {
      calls := [];
      toast := None;
      if !Truthy(token) {
        return;
      }
      calls := [Call(GET, "/sistemas")];
      var step := SistemasStep(sisResp);
      if step.Fault? {
        toast := Some(ErrorToast(step.message));
        return;
      }
      if step.value.Some? {
        sistemas := step.value.value;
      }
      if IsEditing(id) {
        calls := calls + [Call(GET, "/campanhas/" + id.value)];
        var camp := ReadBody(campResp, LoadFailText);
        if camp.Got? {
          prefill := Some(camp.value);
        } else {
          toast := Some(ErrorToast(camp.message));
        }
      }
    }
  }
}
