/** A character's sheet: loaded without a token, with its system resolved by
    a second request; the owner gets edit and delete controls. */
module FichaPersonagem {
  import opened Base
  import opened Text
  import opened Entities
  import opened Lists
  import opened Roles
  import opened Http
  import opened Detail

  const NotFoundText := "Personagem não encontrado."
  const SistemasFailText := "Não foi possível carregar os sistemas."
  const UnknownSystemText := "Sistema não identificado"
  const DeleteFailText := "Falha ao excluir o personagem."
  const DeletedText := "Personagem excluído com sucesso!"

  /** The screen's four pieces of state. */
  datatype FichaState = FichaState(personagem: Option<Personagem>, nomeSistema: Option<string>,
                                   loading: bool, error: Option<string>)

  const Initial := FichaState(None, None, true, None)

  /** The name of the first system whose id is the character's, or the
      "unidentified" text when no system has that id. */
  function SistemaLabel(sistemas: seq<Sistema>, sistema_id: int): (nome: string)
    ensures (forall i :: 0 <= i < |sistemas| ==> sistemas[i].id != sistema_id) ==> nome == UnknownSystemText
    ensures (exists i :: 0 <= i < |sistemas| && sistemas[i].id == sistema_id) ==>
              exists i :: 0 <= i < |sistemas| && sistemas[i].id == sistema_id && nome == sistemas[i].nome
                          && forall j :: 0 <= j < i ==> sistemas[j].id != sistema_id
  {
    match Find(sistemas, (s: Sistema) => s.id == sistema_id)
    case Some(s) => s.nome
    case None => UnknownSystemText
  }

  /** What `buscaDados` leaves behind. The effect first clears the error; a
      failure of either request sets the error to its message and drops the
      character (even one the first request delivered); the system name is
      only written once both requests have succeeded. */
  function Loaded(st: FichaState, pers: Read<Personagem>, sis: Read<seq<Sistema>>): (r: FichaState)
    ensures !r.loading
    ensures r.personagem.Some? <==> pers.Got? && sis.Got?
    ensures r.error.None? <==> pers.Got? && sis.Got?
    ensures r.personagem.Some? ==> r.personagem.value == pers.value
                                   && r.nomeSistema == Some(SistemaLabel(sis.value, pers.value.sistema_id))
    ensures pers.Fault? ==> r.error == Some(pers.message)
    ensures pers.Got? && sis.Fault? ==> r.error == Some(sis.message)
    ensures r.personagem.None? ==> r.nomeSistema == st.nomeSistema
  {
    match pers
    case Fault(m) => FichaState(None, st.nomeSistema, false, Some(m))
    case Got(p) =>
      match sis
      case Fault(m) => FichaState(None, st.nomeSistema, false, Some(m))
      case Got(ss) => FichaState(Some(p), Some(SistemaLabel(ss, p.sistema_id)), false, None)
  }

  /** The sheet is shown exactly when both requests succeeded, and then it
      is the delivered character. */
  lemma SheetIffBothLoaded(st: FichaState, pers: Read<Personagem>, sis: Read<seq<Sistema>>)
    ensures var r := Loaded(st, pers, sis);
      DetailView(r.loading, r.error, r.personagem).Mostra? <==> pers.Got? && sis.Got?
    ensures var r := Loaded(st, pers, sis);
      pers.Got? && sis.Got? ==> DetailView(r.loading, r.error, r.personagem) == Mostra(pers.value)
  {
  }

  /** A failure with a message shows that message; a failure whose message
      is empty is falsy and shows the "no character" text instead. */
  lemma FailureView(st: FichaState, pers: Read<Personagem>, sis: Read<seq<Sistema>>, m: string)
    requires pers == Fault(m) || (pers.Got? && sis == Fault(m))
    ensures var r := Loaded(st, pers, sis);
      DetailView(r.loading, r.error, r.personagem) == (if m != "" then Erro(m) else Vazio)
  {
  }

  /** The footer: `nomeSistema || "ID " + sistema_id`. */
  function FooterSistema(nomeSistema: Option<string>, sistema_id: int): (t: string)
    ensures Truthy(nomeSistema) ==> t == nomeSistema.value
    ensures !Truthy(nomeSistema) ==> t == "ID " + IntDecimal(sistema_id)
  {
    if Truthy(nomeSistema) then nomeSistema.value else "ID " + IntDecimal(sistema_id)
  }

  /** After a full load the footer names the character's system, says it is
      unidentified when no system matches, and falls back to the id only for
      a matching system whose name is empty. */
  lemma FooterAfterLoad(st: FichaState, p: Personagem, sistemas: seq<Sistema>)
    ensures var r := Loaded(st, Got(p), Got(sistemas));
      var t := FooterSistema(r.nomeSistema, p.sistema_id);
      && ((forall i :: 0 <= i < |sistemas| ==> sistemas[i].id != p.sistema_id) ==> t == UnknownSystemText)
      && (r.nomeSistema != Some("") ==> t == r.nomeSistema.value)
      && (r.nomeSistema == Some("") ==>
            (t == "ID " + IntDecimal(p.sistema_id) &&
             exists i :: 0 <= i < |sistemas| && sistemas[i].id == p.sistema_id && sistemas[i].nome == ""))
  {
    var found := SistemaLabel(sistemas, p.sistema_id);
    if found == "" {
      assert found != UnknownSystemText;
    }
  }

  /** The edit and delete controls are shown to the character's owner and
      to nobody else, whatever the role. */
  predicate ShowsOwnerControls(jogador: Option<Claims>, p: Personagem)
  {
    IsOwner(jogador, p.usuario_id)
  }

  /** The controls need a signed-in owner: a guest never sees them, and a
      signed-in user sees them exactly on the characters whose owner id is
      theirs. */
  lemma OwnerControlsNeedOwnership(jogador: Option<Claims>, p: Personagem)
    ensures jogador.None? ==> !ShowsOwnerControls(jogador, p)
    ensures ShowsOwnerControls(jogador, p) && p.usuario_id != 0 ==> IsSignedIn(jogador)
    ensures jogador.Some? ==> (ShowsOwnerControls(jogador, p) <==> jogador.value.usuarioId == p.usuario_id)
  {
  }

  /** An administrator who does not own the character gets no controls. */
  lemma AdminIsNotOwner(jogador: Option<Claims>, p: Personagem)
    requires IsAdmin(jogador) && jogador.value.usuarioId != p.usuario_id
    ensures !ShowsOwnerControls(jogador, p)
  {
  }

  class FichaPersonagemScreen {
    var personagem: Option<Personagem>
    var nomeSistema: Option<string>
    var loading: bool
    var error: Option<string>

    function State(): FichaState
      reads this
    {
      FichaState(personagem, nomeSistema, loading, error)
    }

    constructor ()
      ensures State() == Initial
    {
      personagem := None;
      nomeSistema := None;
      loading := true;
      error := None;
    }

    /** The load effect, run whenever the route's `personagemId` changes.
        It returns the GETs it issued: the system list only after the
        character arrived. */
    method BuscaDados(personagemId: Option<string>, persResp: Response<Personagem>, sisResp: Response<seq<Sistema>>)
      returns (calls: seq<Call>)
      modifies this
      ensures State() == Loaded(old(State()), ReadBody(persResp, NotFoundText), ReadBody(sisResp, SistemasFailText))
      ensures calls == [Call(GET, "/personagens/" + Segment(personagemId))] +
                       (if ReadBody(persResp, NotFoundText).Got? then [Call(GET, "/sistemas")] else [])
    {
      loading := true;
      error := None;
      calls := [Call(GET, "/personagens/" + Segment(personagemId))];
      var pers := ReadBody(persResp, NotFoundText);
      if pers.Fault? {
        error := Some(pers.message);
        personagem := None;
      } else {
        personagem := Some(pers.value);
        calls := calls + [Call(GET, "/sistemas")];
        var sis := ReadBody(sisResp, SistemasFailText);
        if sis.Fault? {
          error := Some(sis.message);
          personagem := None;
        } else {
          var found := Find(sis.value, (s: Sistema) => s.id == pers.value.sistema_id);
          if found.Some? {
            nomeSistema := Some(found.value.nome);
          } else {
            nomeSistema := Some(UnknownSystemText);
          }
        }
      }
      loading := false;
    }

    /** `excluirPersonagem`: nothing without a loaded character or without
        confirmation; otherwise a DELETE of that character, then either a
        success toast and a move to "/", or the failure toast and no move. */
    method ExcluirPersonagem(confirmed: bool, resp: Response<()>)
      returns (call: Option<Call>, toasts: seq<Toast>, navigateTo: Option<string>)
      ensures personagem.None? || !confirmed ==> call.None? && toasts == [] && navigateTo.None?
      ensures personagem.Some? && confirmed ==>
                call == Some(Call(DELETE, "/personagens/" + IntDecimal(personagem.value.id)))
      ensures personagem.Some? && confirmed && StatusOutcome(resp, DeleteFailText).Done? ==>
                toasts == [SuccessToast(DeletedText)] && navigateTo == Some("/")
      ensures personagem.Some? && confirmed && StatusOutcome(resp, DeleteFailText).Failed? ==>
                toasts == [ErrorToast(StatusOutcome(resp, DeleteFailText).message)] && navigateTo.None?
    {
      call := None;
      toasts := [];
      navigateTo := None;
      if personagem.None? || !confirmed {
        return;
      }
      call := Some(Call(DELETE, "/personagens/" + IntDecimal(personagem.value.id)));
      var outcome := StatusOutcome(resp, DeleteFailText);
      if outcome.Done? {
        toasts := [SuccessToast(DeletedText)];
        navigateTo := Some("/");
      } else {
        toasts := [ErrorToast(outcome.message)];
      }
    }
  }
}
