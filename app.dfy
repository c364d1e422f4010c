/** The home screen: every character as a card, with a search box. */
module App {
  import opened Base
  import opened Entities
  import opened Lists
  import opened Roles
  import Titulo

  class PersonagensScreen {
    var personagens: seq<Personagem>
    var searchTerm: string

    /** Mounted with an empty list and an empty search term. */
    constructor ()
      ensures personagens == [] && searchTerm == ""
    {
      personagens := [];
      searchTerm := "";
    }

    /** The mount effect `buscaDados`. It has no catch block: a rejected
        fetch or an unreadable body ends the effect before the list is set. */
    method BuscaDados(resp: Response<Payload<Personagem>>)
      modifies this
      ensures personagens == ListAfterFetch(resp, old(personagens))
      ensures searchTerm == old(searchTerm)
    {
      if resp.Reply? {
        if resp.ok {
          if resp.body.Parsed? {
            var dados := resp.body.value;
            personagens := if dados.JsonArray? then dados.items else [];
          }
        } else {
          personagens := [];
        }
      }
    }

    /** Typing in the search box. */
    method SetSearchTerm(term: string)
      modifies this
      ensures searchTerm == term && personagens == old(personagens)
    {
      searchTerm := term;
    }

    /** "Exibir Todos": clears the term, which shows the whole fetched list. */
    method ExibirTodos()
      modifies this
      ensures searchTerm == "" && personagens == old(personagens)
      ensures Shown() == personagens
    {
      searchTerm := "";
      FilterEmptyTerm(personagens, PersonagemNome);
    }

    /** `filteredPersonagens`. */
    function Shown(): seq<Personagem>
      reads this
    {
      FilterByName(personagens, PersonagemNome, searchTerm)
    }
  }

  /** "Criar Novo Personagem" is linked only for a signed-in identity with a
      truthy user id. */
  predicate ShowsCreateLink(jogador: Option<Claims>)
  {
    IsSignedIn(jogador)
  }

  /** The create link comes and goes with the member menu of the header. */
  lemma CreateLinkIffMemberMenu(jogador: Option<Claims>)
    ensures ShowsCreateLink(jogador) <==> Titulo.MenuFor(jogador) == Titulo.MemberMenu
  {
  }

  /** "Nenhum personagem encontrado" is shown exactly when no fetched
      character's name matches the term. */
  lemma NothingFoundIff(personagens: seq<Personagem>, term: string)
    ensures |FilterByName(personagens, PersonagemNome, term)| == 0 <==>
            forall p :: p in personagens ==> !Matches(p.nome, term)
  {
    var r := FilterByName(personagens, PersonagemNome, term);
    if |r| != 0 {
      assert r[0] in r;
    }
  }
}
