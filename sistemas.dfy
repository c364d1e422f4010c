/** The game-system table: a search box, one row per system, and for
    administrators an actions column with edit and delete. */
module Sistemas {
  import opened Base
  import opened Text
  import opened Entities
  import opened Lists
  import opened Roles
  import opened Http

  const FetchFailText := "Falha ao buscar sistemas."
  const FetchNetworkText := "Erro de rede ao buscar sistemas."
  const DeleteFailText := "Falha ao excluir o sistema."
  const DeletedText := "Sistema excluído com sucesso!"

  class SistemasScreen {
    var sistemas: seq<Sistema>
    var searchTerm: string

    constructor ()
      ensures sistemas == [] && searchTerm == ""
    {
      sistemas := [];
      searchTerm := "";
    }

    /** `buscaSistemas`: fetch the whole list and overwrite the state. */
    method BuscaSistemas(resp: Response<Payload<Sistema>>) returns (toast: Option<Toast>)
      modifies this
      ensures sistemas == ListAfterFetch(resp, old(sistemas))
      ensures searchTerm == old(searchTerm)
      ensures toast == FetchFailureToast(resp, FetchFailText, FetchNetworkText)
    {
      toast := None;
      match resp {
        case Rejected(_) =>
          toast := Some(ErrorToast(FetchNetworkText));
        case Reply(ok, body) =>
          if ok {
            match body {
              case Parsed(data) =>
                sistemas := if data.JsonArray? then data.items else [];
              case Malformed(_) =>
                toast := Some(ErrorToast(FetchNetworkText));
            }
          } else {
            sistemas := [];
            toast := Some(ErrorToast(FetchFailText));
          }
      }
    }

    /** `excluirSistema`: a DELETE only after an accepted confirmation, and a
        refetch of the whole list only after it succeeds. */
    method ExcluirSistema(id: int, confirmed: bool, deletion: Response<()>,
                          refetch: Response<Payload<Sistema>>)
      returns (call: Option<Call>, toasts: seq<Toast>)
      modifies this
      ensures searchTerm == old(searchTerm)
      ensures !confirmed ==> call.None? && toasts == [] && sistemas == old(sistemas)
      ensures confirmed ==> call == Some(Call(DELETE, "/sistemas/" + IntDecimal(id)))
      ensures confirmed && StatusOutcome(deletion, DeleteFailText).Done? ==>
                sistemas == ListAfterFetch(refetch, old(sistemas)) &&
                toasts == [SuccessToast(DeletedText)] + AsSeq(FetchFailureToast(refetch, FetchFailText, FetchNetworkText))
      ensures confirmed && StatusOutcome(deletion, DeleteFailText).Failed? ==>
                sistemas == old(sistemas) &&
                toasts == [ErrorToast(StatusOutcome(deletion, DeleteFailText).message)]
    {
      call := None;
      toasts := [];
      if confirmed {
        call := Some(Call(DELETE, "/sistemas/" + IntDecimal(id)));
        var outcome := StatusOutcome(deletion, DeleteFailText);
        if outcome.Done? {
          toasts := [SuccessToast(DeletedText)];
          var t := BuscaSistemas(refetch);
          toasts := toasts + AsSeq(t);
        } else {
          toasts := [ErrorToast(outcome.message)];
        }
      }
    }

    method SetSearchTerm(term: string)
      modifies this
      ensures searchTerm == term && sistemas == old(sistemas)
    {
      searchTerm := term;
    }

    /** "Exibir Todos": the term becomes "", which shows every system. */
    method ExibirTodos()
      modifies this
      ensures searchTerm == "" && sistemas == old(sistemas)
      ensures Shown() == sistemas
    {
      searchTerm := "";
      FilterEmptyTerm(sistemas, SistemaNome);
    }

    /** `filteredSistemas`. */
    function Shown(): seq<Sistema>
      reads this
    {
      FilterByName(sistemas, SistemaNome, searchTerm)
    }
  }

  /** The table's header cells: the actions column only for an
      administrator. */
  function HeaderCells(jogador: Option<Claims>): (h: seq<string>)
    ensures |h| >= 2 && h[..2] == ["ID", "Nome do Sistema"]
    ensures |h| == 3 <==> IsAdmin(jogador)
  {
    ["ID", "Nome do Sistema"] + (if IsAdmin(jogador) then ["Ações"] else [])
  }

  /** The `colSpan` of the "Nenhum sistema encontrado" row. */
  function EmptyRowSpan(jogador: Option<Claims>): nat
  {
    if IsAdmin(jogador) then 3 else 2
  }

  /** The empty-result row spans exactly the columns of the header, for
      administrators and everyone else alike. */
  lemma EmptyRowSpansHeader(jogador: Option<Claims>)
    ensures EmptyRowSpan(jogador) == |HeaderCells(jogador)|
  {
  }

  /** A row's action cell (edit link and delete button) exists exactly when
      the header has its actions column. */
  predicate RowHasActions(jogador: Option<Claims>)
  {
    IsAdmin(jogador)
  }

  /** Every row has its action cell exactly when the header has the actions
      column, so rows and header always have the same width. */
  lemma RowActionsIffHeaderColumn(jogador: Option<Claims>)
    ensures RowHasActions(jogador) <==> |HeaderCells(jogador)| == 3
  {
  }
}
