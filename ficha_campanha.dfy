/** A campaign's detail page: loaded only with a token and a route id. */
module FichaCampanha {
  import opened Base
  import opened Text
  import opened Entities
  import opened Http
  import opened Detail

  const NotFoundText := "Campanha não encontrada."
  const LoginRequiredText := "Você precisa estar logado para ver os detalhes de uma campanha."

  datatype FichaCampanhaState = FichaCampanhaState(campanha: Option<Campanha>, loading: bool, error: Option<string>)

  const Initial := FichaCampanhaState(None, true, None)

  /** What the load effect leaves behind. With a truthy token and id the
      campaign is fetched: its body replaces the record and clears the
      error, a failure drops the record and sets the error. Otherwise no
      request is made, loading ends, the record stays, and the error becomes
      the sign-in message only when the token is missing. */
  function Loaded(st: FichaCampanhaState, token: Option<string>, id: Option<string>, read: Read<Campanha>): (r: FichaCampanhaState)
    ensures !r.loading
    ensures !Truthy(token) ==> r.error == Some(LoginRequiredText) && r.campanha == st.campanha
    ensures Truthy(token) && !Truthy(id) ==> r == st.(loading := false)
    ensures Truthy(token) && Truthy(id) ==>
              (r.campanha.Some? <==> read.Got?) && (r.error.None? <==> read.Got?)
    ensures Truthy(token) && Truthy(id) && read.Got? ==> r.campanha == Some(read.value)
    ensures Truthy(token) && Truthy(id) && read.Fault? ==> r.error == Some(read.message)
  {
    if Truthy(token) && Truthy(id) then
      match read
      case Got(c) => FichaCampanhaState(Some(c), false, None)
      case Fault(m) => FichaCampanhaState(None, false, Some(m))
    else
      FichaCampanhaState(st.campanha, false, if !Truthy(token) then Some(LoginRequiredText) else st.error)
  }

  function ViewOf(st: FichaCampanhaState): View<Campanha>
  {
    DetailView(st.loading, st.error, st.campanha)
  }

  /** Without a token the page always ends on the sign-in message. */
  lemma SignedOutSeesLoginMessage(st: FichaCampanhaState, token: Option<string>, id: Option<string>, read: Read<Campanha>)
    requires !Truthy(token)
    ensures ViewOf(Loaded(st, token, id, read)) == Erro(LoginRequiredText)
  {
  }

  /** With a token and an id the page shows the campaign exactly when the
      request delivered it. */
  lemma DetailIffLoaded(st: FichaCampanhaState, token: Option<string>, id: Option<string>, read: Read<Campanha>)
    requires Truthy(token) && Truthy(id)
    ensures ViewOf(Loaded(st, token, id, read)).Mostra? <==> read.Got?
    ensures read.Got? ==> ViewOf(Loaded(st, token, id, read)) == Mostra(read.value)
  {
  }

  /** With a token but no id, a fresh page shows the "nothing to show"
      message: no request is made and nothing sets an error. */
  lemma NoIdShowsNothing(token: Option<string>, read: Read<Campanha>)
    requires Truthy(token)
    ensures ViewOf(Loaded(Initial, token, None, read)) == Vazio
  {
  }

  /** The request the effect makes, if any. */
  function Request(token: Option<string>, id: Option<string>): (c: Option<Call>)
    ensures c.Some? <==> Truthy(token) && Truthy(id)
    ensures c.Some? ==> c.value == Call(GET, "/campanhas/" + id.value)
  {
    if Truthy(token) && Truthy(id) then Some(Call(GET, "/campanhas/" + id.value)) else None
  }

  /** The roster cards, one link per character in roster order; an absent
      roster has none. */
  function RosterLinks(c: Campanha): (links: seq<string>)
    ensures c.personagens.None? ==> links == []
    ensures c.personagens.Some? ==> |links| == |c.personagens.value|
    ensures c.personagens.Some? ==> forall i :: 0 <= i < |links| ==>
              links[i] == "/personagem/" + IntDecimal(c.personagens.value[i].id)
  {
    match c.personagens
    case None => []
    case Some(ps) => seq(|ps|, i requires 0 <= i < |ps| => "/personagem/" + IntDecimal(ps[i].id))
  }

  /** "Nenhum personagem nesta campanha ainda." is shown exactly when the
      roster is absent or empty, i.e. when there is no card. */
  predicate ShowsEmptyRoster(c: Campanha)
  {
    !(c.personagens.Some? && |c.personagens.value| > 0)
  }

  lemma EmptyRosterIffNoCards(c: Campanha)
    ensures ShowsEmptyRoster(c) <==> RosterLinks(c) == []
  {
    if !ShowsEmptyRoster(c) {
      assert |RosterLinks(c)| > 0;
    }
  }

  class FichaCampanhaScreen {
    var campanha: Option<Campanha>
    var loading: bool
    var error: Option<string>

    function State(): FichaCampanhaState
      reads this
    {
      FichaCampanhaState(campanha, loading, error)
    }

    constructor ()
      ensures State() == Initial
    {
      campanha := None;
      loading := true;
      error := None;
    }

    /** The effect, run when the token or the route id changes. */
    method BuscaDados(token: Option<string>, id: Option<string>, resp: Response<Campanha>)
      returns (call: Option<Call>)
      modifies this
      ensures State() == Loaded(old(State()), token, id, ReadBody(resp, NotFoundText))
      ensures call == Request(token, id)
    {
      if Truthy(token) && Truthy(id) {
        loading := true;
        error := None;
        call := Some(Call(GET, "/campanhas/" + id.value));
        var read := ReadBody(resp, NotFoundText);
        if read.Got? {
          campanha := Some(read.value);
        } else {
          error := Some(read.message);
          campanha := None;
        }
        loading := false;
      } else {
        call := None;
        loading := false;
        if !Truthy(token) {
          error := Some(LoginRequiredText);
        }
      }
    }
  }
}
