/** The campaign list: cards with a search box; administrators also get
    create, manage, edit and delete controls. */
module Campanhas {
  import opened Base
  import opened Text
  import opened Entities
  import opened Lists
  import opened Roles
  import opened Http

  const FetchFailText := "Falha ao buscar campanhas."
  const FetchNetworkText := "Erro de rede ao buscar campanhas."
  const DeleteFailText := "Falha ao excluir a campanha."
  const DeletedText := "Campanha excluída com sucesso!"

  /** A control on a campaign card. */
  datatype Control = LinkTo(path: string) | DeleteButton(id: int)

  class CampanhasScreen {
    var campanhas: seq<Campanha>
    var searchTerm: string

    constructor ()
      ensures campanhas == [] && searchTerm == ""
    {
      campanhas := [];
      searchTerm := "";
    }

    /** `buscaCampanhas`: fetch the whole list and overwrite the state. */
    method BuscaCampanhas(resp: Response<Payload<Campanha>>) returns (toast: Option<Toast>)
      modifies this
      ensures campanhas == ListAfterFetch(resp, old(campanhas))
      ensures searchTerm == old(searchTerm)
      ensures toast == FetchFailureToast(resp, FetchFailText, FetchNetworkText)
    {
      toast := None;
      match resp {
        case Rejected(_) =>
          toast := Some(ErrorToast(FetchNetworkText));
        case Reply(ok, body) =>
          if ok {
            match body {
              case Parsed(data) =>
                campanhas := if data.JsonArray? then data.items else [];
              case Malformed(_) =>
                toast := Some(ErrorToast(FetchNetworkText));
            }
          } else {
            campanhas := [];
            toast := Some(ErrorToast(FetchFailText));
          }
      }
    }

    /** `excluirCampanha`: nothing happens unless the confirmation is
        accepted; then a DELETE is sent, and only its success triggers a
        refetch of the whole list (no local splice). The toasts are returned
        in the order they are raised. */
    method ExcluirCampanha(id: int, confirmed: bool, deletion: Response<()>,
                           refetch: Response<Payload<Campanha>>)
      returns (call: Option<Call>, toasts: seq<Toast>)
      modifies this
      ensures searchTerm == old(searchTerm)
      ensures !confirmed ==> call.None? && toasts == [] && campanhas == old(campanhas)
      ensures confirmed ==> call == Some(Call(DELETE, "/campanhas/" + IntDecimal(id)))
      ensures confirmed && StatusOutcome(deletion, DeleteFailText).Done? ==>
                campanhas == ListAfterFetch(refetch, old(campanhas)) &&
                toasts == [SuccessToast(DeletedText)] + AsSeq(FetchFailureToast(refetch, FetchFailText, FetchNetworkText))
      ensures confirmed && StatusOutcome(deletion, DeleteFailText).Failed? ==>
                campanhas == old(campanhas) &&
                toasts == [ErrorToast(StatusOutcome(deletion, DeleteFailText).message)]
    {
      call := None;
      toasts := [];
      if confirmed {
        call := Some(Call(DELETE, "/campanhas/" + IntDecimal(id)));
        var outcome := StatusOutcome(deletion, DeleteFailText);
        if outcome.Done? {
          toasts := [SuccessToast(DeletedText)];
          var t := BuscaCampanhas(refetch);
          toasts := toasts + AsSeq(t);
        } else {
          toasts := [ErrorToast(outcome.message)];
        }
      }
    }

    method SetSearchTerm(term: string)
      modifies this
      ensures searchTerm == term && campanhas == old(campanhas)
    {
      searchTerm := term;
    }

    /** "Exibir Todos": the term becomes "", which shows every campaign. */
    method ExibirTodos()
      modifies this
      ensures searchTerm == "" && campanhas == old(campanhas)
      ensures Shown() == campanhas
    {
      searchTerm := "";
      FilterEmptyTerm(campanhas, CampanhaNome);
    }

    /** `filteredCampanhas`. */
    function Shown(): seq<Campanha>
      reads this
    {
      FilterByName(campanhas, CampanhaNome, searchTerm)
    }
  }

  /** The controls a card carries: manage, edit and delete for an
      administrator, none for anyone else. The header's create link follows
      the same rule. */
  function CardControls(jogador: Option<Claims>, c: Campanha): (r: seq<Control>)
    ensures r != [] <==> IsAdmin(jogador)
    ensures r != [] ==> DeleteButton(c.id) in r && LinkTo("/campanhas/" + IntDecimal(c.id) + "/editar") in r
  {
    if IsAdmin(jogador) then
      [LinkTo("/campanhas/" + IntDecimal(c.id) + "/gerenciar-personagens"),
       LinkTo("/campanhas/" + IntDecimal(c.id) + "/editar"),
       DeleteButton(c.id)]
    else []
  }

  /** "Criar Nova Campanha" is linked only for an administrator. */
  predicate ShowsCreateLink(jogador: Option<Claims>)
  {
    IsAdmin(jogador)
  }

  /** The create link is shown to exactly the users who see the controls
      on every card. */
  lemma CreateLinkIffCardControls(jogador: Option<Claims>, c: Campanha)
    ensures ShowsCreateLink(jogador) <==> CardControls(jogador, c) != []
  {
  }
}
