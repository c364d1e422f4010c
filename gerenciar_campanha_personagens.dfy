/** The roster screen of one campaign: the characters on it, and the
    characters that can still be added. */
module GerenciarCampanhaPersonagens {
  import opened Base
  import opened Text
  import opened Entities
  import opened Lists
  import opened Http

  /** The campaign as this screen fetches it: its roster unwrapped. */
  datatype CampanhaDetails = CampanhaDetails(id: int, nome: string, personagens: seq<Personagem>)

  const CampanhaFailText := "Falha ao carregar dados da campanha."
  const PersonagensFailText := "Falha ao carregar personagens."
  const AddFailText := "Falha ao adicionar personagem."
  const AddedText := "Personagem adicionado!"
  const RemoveFailText := "Falha ao remover personagem."
  const RemovedText := "Personagem removido!"

  /** `personagensNaCampanhaIds`: the roster's ids in roster order, or none
      while no campaign is loaded. */
  function RosterIds(campanha: Option<CampanhaDetails>): (ids: seq<int>)
    ensures campanha.None? ==> ids == []
    ensures campanha.Some? ==> |ids| == |campanha.value.personagens|
    ensures campanha.Some? ==> forall i :: 0 <= i < |ids| ==> ids[i] == campanha.value.personagens[i].id
  {
    match campanha
    case None => []
    case Some(c) => seq(|c.personagens|, i requires 0 <= i < |c.personagens| => c.personagens[i].id)
  }

  /** `personagensDisponiveis`: every character whose id is not on the
      roster, in the order of the full list. */
  function Available(all: seq<Personagem>, campanha: Option<CampanhaDetails>): (r: seq<Personagem>)
    ensures IsSubsequence(r, all)
    ensures forall p :: p in r <==> p in all && p.id !in RosterIds(campanha)
    ensures forall p :: multiset(r)[p] == if p.id !in RosterIds(campanha) then multiset(all)[p] else 0
  {
    var ids := RosterIds(campanha);
    KeepSpec(all, (p: Personagem) => p.id !in ids);
    KeepCount(all, (p: Personagem) => p.id !in ids);
    Keep(all, (p: Personagem) => p.id !in ids)
  }

  /** No character is offered for adding while a character with its id is
      on the roster: the two columns never share an id. */
  lemma ColumnsDisjoint(all: seq<Personagem>, c: CampanhaDetails)
    ensures forall p, q :: p in Available(all, Some(c)) && q in c.personagens ==> p.id != q.id
  {
    var ids := RosterIds(Some(c));
    forall q | q in c.personagens
      ensures q.id in ids
    {
      var i :| 0 <= i < |c.personagens| && c.personagens[i] == q;
      assert ids[i] == q.id;
    }
  }

  /** The two columns together account for every character: each one of
      the full list is either offered or has its id on the roster. */
  lemma ColumnsCover(all: seq<Personagem>, c: CampanhaDetails)
    ensures forall p :: p in all ==> p in Available(all, Some(c)) || exists q :: q in c.personagens && q.id == p.id
  {
    var ids := RosterIds(Some(c));
    forall p | p in all && p !in Available(all, Some(c))
      ensures exists q :: q in c.personagens && q.id == p.id
    {
      var i :| 0 <= i < |ids| && ids[i] == p.id;
      assert c.personagens[i] in c.personagens;
    }
  }

  /** Before a campaign is loaded every character is available. */
  lemma NoCampaignAllAvailable(all: seq<Personagem>)
    ensures Available(all, None) == all
  {
    KeepAll(all, (p: Personagem) => p.id !in RosterIds(None));
  }

  /** What the screen holds between renders. */
  datatype RosterState = RosterState(campanha: Option<CampanhaDetails>, allPersonagens: seq<Personagem>, loading: bool)

  const Initial := RosterState(None, [], true)

  /** One run of `fetchData`: the new state, the GETs issued in order, and
      the toast of the first failure. */
  datatype FetchRun = FetchRun(state: RosterState, calls: seq<Call>, toast: Option<Toast>)

  /** `fetchData`: without a truthy token and campaign id it does nothing
      (and so leaves `loading` as it was); otherwise it loads the campaign,
      then, only if that worked, every character, and always ends with
      `loading` false. */
  function Fetched(st: RosterState, token: Option<string>, campanhaId: Option<string>,
                   campResp: Response<CampanhaDetails>, persResp: Response<seq<Personagem>>): (r: FetchRun)
    ensures !(Truthy(token) && Truthy(campanhaId)) ==> r == FetchRun(st, [], None)
    ensures Truthy(token) && Truthy(campanhaId) ==> !r.state.loading
    ensures Truthy(token) && Truthy(campanhaId) ==>
              var camp := ReadBody(campResp, CampanhaFailText);
              var pers := ReadBody(persResp, PersonagensFailText);
              && r.state.campanha == (if camp.Got? then Some(camp.value) else st.campanha)
              && r.state.allPersonagens == (if camp.Got? && pers.Got? then pers.value else st.allPersonagens)
              && r.calls == [Call(GET, "/campanhas/" + campanhaId.value)] + (if camp.Got? then [Call(GET, "/personagens")] else [])
              && r.toast == (if camp.Fault? then Some(ErrorToast(camp.message))
                             else if pers.Fault? then Some(ErrorToast(pers.message))
                             else None)
  {
    if !Truthy(token) || !Truthy(campanhaId) then FetchRun(st, [], None)
    else
      var first := Call(GET, "/campanhas/" + campanhaId.value);
      match ReadBody(campResp, CampanhaFailText)
      case Fault(m) => FetchRun(st.(loading := false), [first], Some(ErrorToast(m)))
      case Got(c) =>
        match ReadBody(persResp, PersonagensFailText)
        case Fault(m) =>
          FetchRun(st.(campanha := Some(c), loading := false), [first, Call(GET, "/personagens")], Some(ErrorToast(m)))
        case Got(ps) =>
          FetchRun(RosterState(Some(c), ps, false), [first, Call(GET, "/personagens")], None)
  }

  /** A fetch that got both lists shows exactly the delivered roster and, in
      the other column, every delivered character not on it; the state it
      came from no longer matters. */
  lemma FetchedShowsDelivered(st: RosterState, token: Option<string>, campanhaId: Option<string>,
                              c: CampanhaDetails, ps: seq<Personagem>)
    requires Truthy(token) && Truthy(campanhaId)
    ensures var r := Fetched(st, token, campanhaId, Reply(true, Parsed(c)), Reply(true, Parsed(ps)));
      r.state == RosterState(Some(c), ps, false) && r.toast.None? &&
      Available(r.state.allPersonagens, r.state.campanha) == Available(ps, Some(c))
  {
  }

  /** Fetching again with the same replies changes the state no further,
      so the refetch after an add or a remove settles in one run. */
  lemma RefetchIdempotent(st: RosterState, token: Option<string>, campanhaId: Option<string>,
                          campResp: Response<CampanhaDetails>, persResp: Response<seq<Personagem>>)
    ensures var r := Fetched(st, token, campanhaId, campResp, persResp);
      Fetched(r.state, token, campanhaId, campResp, persResp).state == r.state
  {
  }

  class RosterScreen {
    var campanha: Option<CampanhaDetails>
    var allPersonagens: seq<Personagem>
    var loading: bool

    function State(): RosterState
      reads this
    {
      RosterState(campanha, allPersonagens, loading)
    }

    constructor ()
      ensures State() == Initial
    {
      campanha := None;
      allPersonagens := [];
      loading := true;
    }

    /** The "Disponíveis" column, recomputed from the state on every render,
        so it follows every refetch. */
    function Disponiveis(): seq<Personagem>
      reads this
    {
      Available(allPersonagens, campanha)
    }

    /** `fetchData` as the screen runs it, step by step. */
    method FetchData(token: Option<string>, campanhaId: Option<string>,
                     campResp: Response<CampanhaDetails>, persResp: Response<seq<Personagem>>)
      returns (calls: seq<Call>, toast: Option<Toast>)
      modifies this
      ensures FetchRun(State(), calls, toast) == Fetched(old(State()), token, campanhaId, campResp, persResp)
    {
      calls := [];
      toast := None;
      if !Truthy(token) || !Truthy(campanhaId) {
        return;
      }
      loading := true;
      calls := [Call(GET, "/campanhas/" + campanhaId.value)];
      var camp := ReadBody(campResp, CampanhaFailText);
      if camp.Fault? {
        toast := Some(ErrorToast(camp.message));
      } else {
        campanha := Some(camp.value);
        calls := calls + [Call(GET, "/personagens")];
        var pers := ReadBody(persResp, PersonagensFailText);
        if pers.Fault? {
          toast := Some(ErrorToast(pers.message));
        } else {
          allPersonagens := pers.value;
        }
      }
      loading := false;
    }

    /** `handleAddPersonagem`: POST the character to the roster; only an ok
        reply raises the success toast and refetches both lists, a failure
        only reports. */
    method HandleAddPersonagem(token: Option<string>, campanhaId: Option<string>, personagemId: int,
                               resp: Response<()>,
                               campResp: Response<CampanhaDetails>, persResp: Response<seq<Personagem>>)
      returns (call: Call, body: int, refetchCalls: seq<Call>, toasts: seq<Toast>)
      modifies this
      ensures call == Call(POST, "/campanhas/" + Segment(campanhaId) + "/personagens")
      ensures body == personagemId
      ensures StatusOutcome(resp, AddFailText).Failed? ==>
                refetchCalls == [] && toasts == [ErrorToast(StatusOutcome(resp, AddFailText).message)] &&
                State() == old(State())
      ensures StatusOutcome(resp, AddFailText).Done? ==>
                var run := Fetched(old(State()), token, campanhaId, campResp, persResp);
                State() == run.state && refetchCalls == run.calls &&
                toasts == [SuccessToast(AddedText)] + AsSeq(run.toast)
    {
      call := Call(POST, "/campanhas/" + Segment(campanhaId) + "/personagens");
      body := personagemId;
      refetchCalls := [];
      var outcome := StatusOutcome(resp, AddFailText);
      if outcome.Failed? {
        toasts := [ErrorToast(outcome.message)];
      } else {
        toasts := [SuccessToast(AddedText)];
        var t;
        refetchCalls, t := FetchData(token, campanhaId, campResp, persResp);
        toasts := toasts + AsSeq(t);
      }
    }

    /** `handleRemovePersonagem`: DELETE the character from the roster; only
        an ok reply raises the success toast and refetches both lists, a
        failure only reports. */
    method HandleRemovePersonagem(token: Option<string>, campanhaId: Option<string>, personagemId: int,
                                  resp: Response<()>,
                                  campResp: Response<CampanhaDetails>, persResp: Response<seq<Personagem>>)
      returns (call: Call, refetchCalls: seq<Call>, toasts: seq<Toast>)
      modifies this
      ensures call == Call(DELETE, "/campanhas/" + Segment(campanhaId) + "/personagens/" + IntDecimal(personagemId))
      ensures StatusOutcome(resp, RemoveFailText).Failed? ==>
                refetchCalls == [] && toasts == [ErrorToast(StatusOutcome(resp, RemoveFailText).message)] &&
                State() == old(State())
      ensures StatusOutcome(resp, RemoveFailText).Done? ==>
                var run := Fetched(old(State()), token, campanhaId, campResp, persResp);
                State() == run.state && refetchCalls == run.calls &&
                toasts == [SuccessToast(RemovedText)] + AsSeq(run.toast)
    {
      call := Call(DELETE, "/campanhas/" + Segment(campanhaId) + "/personagens/" + IntDecimal(personagemId));
      refetchCalls := [];
      var outcome := StatusOutcome(resp, RemoveFailText);
      if outcome.Failed? {
        toasts := [ErrorToast(outcome.message)];
      } else {
        toasts := [SuccessToast(RemovedText)];
        var t;
        refetchCalls, t := FetchData(token, campanhaId, campResp, persResp);
        toasts := toasts + AsSeq(t);
      }
    }
  }
}
