/** The system form, in create mode (no route id) or edit mode. */
module FormSistema {
  import opened Base
  import opened Text
  import opened Entities
  import opened Lists
  import opened Http
  import opened Forms

  const LoadFailText := "Falha ao carregar dados do sistema."
  const SaveFailText := "Falha ao salvar o sistema."
  const UpdatedText := "Sistema atualizado com sucesso!"
  const CreatedText := "Sistema criado com sucesso!"

  /** `Boolean(id)`. */
  predicate IsEditing(id: Option<string>)
  {
    Truthy(id)
  }

  function Target(id: Option<string>): (c: Call)
    ensures IsEditing(id) ==> c == Call(PUT, "/sistemas/" + id.value)
    ensures !IsEditing(id) ==> c == Call(POST, "/sistemas")
  {
    if IsEditing(id) then Call(PUT, "/sistemas/" + id.value) else Call(POST, "/sistemas")
  }

  /** The form's one field. */
  datatype SistemaInputs = SistemaInputs(nome: string)

  /** `onSubmit`: the form data is the body as it stands. */
  function OnSubmit(id: Option<string>, data: SistemaInputs, resp: Response<ErrorBody>): (e: Effects<SistemaInputs>)
    ensures e.request == Some(Sent(Target(id), data))
    ensures e.navigateTo.Some? <==> resp.Reply? && resp.ok
    ensures e.navigateTo.Some? ==>
              e.navigateTo.value == "/sistemas" &&
              e.toasts == [SuccessToast(if IsEditing(id) then UpdatedText else CreatedText)]
    ensures e.navigateTo.None? ==> e.toasts == [ErrorToast(SubmitOutcome(resp, SaveFailText).message)]
  {
    Submitted(Target(id), data, resp, SaveFailText, if IsEditing(id) then UpdatedText else CreatedText, "/sistemas")
  }

  /** `sistemas.find(s => s.id === Number(id))`: a NaN id matches nothing. */
  function FindById(sistemas: seq<Sistema>, id: string): (r: Option<Sistema>)
    ensures ToNumber(id).None? ==> r.None?
    ensures ToNumber(id).Some? ==> r == Find(sistemas, (s: Sistema) => s.id == ToNumber(id).value)
  {
    match ToNumber(id)
    case None => None
    case Some(n) => Find(sistemas, (s: Sistema) => s.id == n)
  }

  /** What the prefill effect does: the GET it sends, the record it resets
      the form to, and the toast of a failure. */
  datatype PrefillLoad = PrefillLoad(call: Option<Call>, reset: Option<Sistema>, toast: Option<Toast>)

  /** `carregarDados`, run only in edit mode with a truthy token: the whole
      list is fetched and the form is reset only if a system has the id. */
  function CarregarDados(token: Option<string>, id: Option<string>, resp: Response<seq<Sistema>>): (l: PrefillLoad)
    ensures l.call.Some? <==> IsEditing(id) && Truthy(token)
    ensures l.call.Some? ==> l.call.value == Call(GET, "/sistemas")
    ensures l.call.None? ==> l.reset.None? && l.toast.None?
    ensures l.toast.Some? <==> l.call.Some? && ReadBody(resp, LoadFailText).Fault?
    ensures l.toast.Some? ==> l.toast.value == ErrorToast(ReadBody(resp, LoadFailText).message) && l.reset.None?
    ensures l.call.Some? && ReadBody(resp, LoadFailText).Got? ==>
              l.reset == FindById(ReadBody(resp, LoadFailText).value, id.value)
  {
    if IsEditing(id) && Truthy(token) then
      match ReadBody(resp, LoadFailText)
      case Fault(m) => PrefillLoad(Some(Call(GET, "/sistemas")), None, Some(ErrorToast(m)))
      case Got(ss) => PrefillLoad(Some(Call(GET, "/sistemas")), FindById(ss, id.value), None)
    else
      PrefillLoad(None, None, None)
  }

  /** Editing the system at `sistemas[i]` (the first one with its id)
      prefills the form with exactly that system. */
  lemma PrefillFindsTheRoutedSystem(token: Option<string>, sistemas: seq<Sistema>, i: int)
    requires Truthy(token)
    requires 0 <= i < |sistemas| && sistemas[i].id >= 0
    requires forall j :: 0 <= j < i ==> sistemas[j].id != sistemas[i].id
    ensures CarregarDados(token, Some(IntDecimal(sistemas[i].id)), Reply(true, Parsed(sistemas))).reset == Some(sistemas[i])
  {
    var n := sistemas[i].id;
    DecimalRoundTrip(n);
    var r := Find(sistemas, (s: Sistema) => s.id == n);
    assert r.Some? by {
      assert sistemas[i].id == n;
    }
    var k :| 0 <= k < |sistemas| && sistemas[k] == r.value && sistemas[k].id == n
             && forall j :: 0 <= j < k ==> sistemas[j].id != n;
    assert k == i;
  }

  /** When no system has the routed id, the form is left as it was: no
      reset and no toast. */
  lemma NoMatchNoReset(token: Option<string>, id: string, sistemas: seq<Sistema>)
    requires Truthy(token) && id != ""
    requires forall i :: 0 <= i < |sistemas| ==> ToNumber(id) != Some(sistemas[i].id)
    ensures CarregarDados(token, Some(id), Reply(true, Parsed(sistemas))).reset.None?
    ensures CarregarDados(token, Some(id), Reply(true, Parsed(sistemas))).toast.None?
  {
  }
}
