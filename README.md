# RPG repository front-end: a Dafny model of its decisions

The front-end (React, TypeScript) lets players browse characters (*personagens*), campaigns (*campanhas*) and game systems (*sistemas*). Administrators create, edit and delete campaigns and systems, and manage campaign rosters. Signed-in players create and edit their own characters.

Almost all of the code fetches data and renders it. This project models the decisions taken around those fetches:

- **Session lifecycle.** The `useJogadorStore` store holds the decoded identity and the token (`AuthContext.JogadorStore`). Browser storage and the router location live in `Browser.Host`. `Layout.Restore` restores a token from storage on load, `Login.VerificaLogin` signs in, `Titulo.JogadorSair` signs out, and `ProtectedRoute.Guard` admits administrators only. The store's setters are specified by their new `Session`, and the restore, login and logout handlers are each proved against a value-level function over `Browser.World`. Restore, login and logout each keep the invariant `AuthContext.Consistent` (the identity is what the token decodes to). Lemmas also state how each path behaves across a reload.
- **List derivations.**
  - The case-insensitive name search shared by three screens (`Lists.FilterByName`).
  - The normalisation of list replies (`Lists.ListAfterFetch`).
  - Role and ownership gates (`Roles`).
  - The roster complement of the campaign-roster screen (`GerenciarCampanhaPersonagens.Available`).
  - The system-name join of the character sheet (`FichaPersonagem.SistemaLabel`).
- **Detail screens.** Each load effect is a function from the old state and the replies to the new state. The screen classes' methods are proved against that function, and `Detail.DetailView` gives the render precedence (loading, error, nothing, record).
- **Forms.** Each submit is a function from the form data and the reply to its effects: the request sent (if any), the toasts raised and the navigation target. It covers the `atributos` JSON gate, the `Number()` coercions, the create/edit target choice and the `erro || fallback` message rule.

Inputs from outside the model are passed in as parameters:

- network replies, as `Base.Response` (rejected, or a status with a body that reads or does not);
- `jwtDecode`, as a partial function `string -> Option<Claims>`;
- `JSON.parse`, as `string -> Forms.JsonParse`;
- `JSON.stringify`, as `Json -> string`;
- the user's answer to `confirm`, as a `bool`.

Two behaviours of the source are worth noting:

- Without a token, the campaign-roster screen never leaves its "Carregando..." state. `fetchData` returns before it resets `loading`, and `GerenciarCampanhaPersonagens.RosterScreen.FetchData` keeps `loading` unchanged in that case.
- The two character edit forms differ on null `atributos`:
  - The routed form (`src/FormEditarPersonagem.tsx`) prefills "".
  - The component version prefills the text "null", which parses back to null.

## Model

| member | source | states |
|---|---|---|
| AuthContext.JogadorStore.constructor | src/context/AuthContext.ts:12-14 | the store starts with identity and token both null |
| AuthContext.JogadorStore.SetToken | src/context/AuthContext.ts:15 | the token is replaced and the identity is left alone |
| AuthContext.JogadorStore.SetJogador | src/context/AuthContext.ts:16 | the identity is replaced and the token is left alone; so `SetToken(None)` then `SetJogador(None)` reaches the logged-out state |
| AuthContext.JogadorStore.DeslogaJogador | src/context/AuthContext.ts:17-20 | both fields are null from any prior state, so a second call changes nothing |
| Browser.Lookup | src/Layout.tsx:13 | `getItem` yields a value exactly when the key is stored, and that value is the stored one |
| Browser.Host.SetItem | src/Login.tsx:44 | the key is written and nothing else in storage or the location changes |
| Browser.Host.RemoveItem | src/Login.tsx:53 | the key is gone, other keys and the location are untouched, and removing an absent key is harmless |
| Browser.Host.Navigate | src/Login.tsx:47 | only the location changes |
| Layout.Restored | src/Layout.tsx:12-26 | restore never moves the location |
| Layout.Restore | src/Layout.tsx:12-26 | the effect, run step by step on the store and the host, ends exactly in the `Restored` world |
| Layout.RestoreWithoutStoredToken | src/Layout.tsx:13-15 | with no stored token, restore changes nothing |
| Layout.RestoreKeepsLiveToken | src/Layout.tsx:15 | a token already in memory wins over whatever storage holds |
| Layout.RestoreAdoptsToken | src/Layout.tsx:16-19 | a stored token that decodes becomes the session, with its claims, and storage is untouched |
| Layout.RestorePurgesUndecodable | src/Layout.tsx:20-24 | a stored token that fails to decode is removed and the session is empty; the failure never escapes |
| Layout.RestoreIdempotent | src/Layout.tsx:12-26 | running restore twice is the same as once |
| Layout.RestorePreservesConsistency | src/Layout.tsx:12-26 | restore keeps the identity equal to what the token decodes to |
| Login.RequestFor | src/Login.tsx:26-29 | the request carries exactly the typed name and password |
| Login.Granted | src/Login.tsx:32-38 | the success path is taken exactly when the status is ok, the body holds a token and that token decodes |
| Login.VerificaLogin | src/Login.tsx:21-55 | the handler's new store, storage and location are `AfterLogin`'s; it sends `RequestFor`; it raises the failure toast exactly on failure |
| Login.NotOkFails | src/Login.tsx:32-34 | a non-ok status leaves nobody signed in and removes the stored token |
| Login.FailureClears | src/Login.tsx:49-53 | any failure, a decode error included, clears the store and the stored token and keeps the location |
| Login.SuccessSignsIn | src/Login.tsx:36-47 | success stores the token and its claims, writes storage only when `manter` is set, and goes to "/" |
| Login.NavigatesOnlyOnSuccess | src/Login.tsx:47 | the location moves only on the success path, and only to "/" |
| Login.LoginEstablishesConsistency | src/Login.tsx:36-53 | every login outcome leaves the identity equal to what the token decodes to |
| Login.KeptLoginSurvivesReload | src/Login.tsx:43-45 | after a "stay signed in" login, a reload restores the same session |
| Login.UnkeptLoginEndsWithReload | src/Login.tsx:43-45 | without "stay signed in", and from a storage holding no token, a reload restores nobody |
| Titulo.MenuFor | src/components/Titulo.tsx:31 | the member menu is shown exactly for an identity with a non-zero (truthy) user id |
| Titulo.JogadorSair | src/components/Titulo.tsx:9-17 | the handler's new store, storage and location are `AfterLogout`'s |
| Titulo.DeclinedLogoutChangesNothing | src/components/Titulo.tsx:10 | declining the confirmation changes nothing |
| Titulo.ConfirmedLogoutSignsOut | src/components/Titulo.tsx:11-15 | a confirmed logout clears the store, leaves no truthy stored token and no other key changed, and goes to "/login" |
| Titulo.LogoutSurvivesReload | src/components/Titulo.tsx:11-14 | after a confirmed logout a reload restores nobody |
| Titulo.LogoutPreservesConsistency | src/components/Titulo.tsx:9-17 | a logout, confirmed or declined, keeps the identity equal to what the token decodes to |
| Titulo.LogoutShowsGuestMenu | src/components/Titulo.tsx:11-31 | after a confirmed logout the guest menu is shown |
| ProtectedRoute.Guard | src/ProtectedRoute.tsx:7-11 | the nested routes render exactly when the role is "ADMIN"; any other case redirects to "/" |
| ProtectedRoute.GuardReadsOnlyRole | src/ProtectedRoute.tsx:5-7 | two sessions with the same role get the same decision, whatever their tokens |
| ProtectedRoute.GuardRejectsLoggedOut | src/ProtectedRoute.tsx:7-8 | nobody signed in is redirected to "/" |
| Roles.RoleOf | src/ProtectedRoute.tsx:7 | there is a role exactly when someone is signed in |
| Roles.GatesNeedIdentity | src/FichaPersonagem.tsx:103 | only a signed-in identity is an administrator, or the owner of a record with a non-zero owner |
| Text.LowerChar | src/App.tsx:29 | a lowered character is never upper case, and other characters are unchanged |
| Text.Lower | src/App.tsx:29 | `toLowerCase` keeps the length and lowers each character |
| Text.LowerIdempotent | src/App.tsx:29 | lowering twice is lowering once |
| Text.Includes | src/App.tsx:29 | `includes` holds exactly when the needle occurs at some position |
| Text.IncludesEmpty | src/App.tsx:61 | every text includes the empty text |
| Text.ToNumber | src/components/FormPersonagem.tsx:59 | `Number()` of a digit string is its value, "" gives 0, anything else is NaN |
| Text.IntDecimal | src/Campanhas.tsx:43 | an id written into a path is non-empty, all digits when non-negative, with a minus sign otherwise |
| Text.DecimalRoundTrip | src/FormSistema.tsx:30 | `Number()` of an id written out in decimal gives the id back |
| Text.DecimalInjective | src/FormSistema.tsx:30 | distinct ids are written differently |
| Lists.KeepSpec | src/App.tsx:28-30 | `filter` keeps exactly the passing elements, in order |
| Lists.KeepCount | src/App.tsx:28-30 | `filter` keeps every copy of a passing element and no copy of a failing one |
| Lists.KeepAppend | src/App.tsx:28-30 | filtering a concatenation filters each part |
| Lists.KeepAll | src/App.tsx:28-30 | when every element passes, nothing is dropped |
| Lists.KeepCongruent | src/App.tsx:28-30 | predicates that agree on the list filter it alike |
| Lists.FilterByName | src/App.tsx:28-30 | the search keeps exactly the items whose lowered name includes the lowered term, as an order-preserving subsequence, each as many times as it was fetched |
| Lists.FilterEmptyTerm | src/App.tsx:61 | the empty term set by "Exibir Todos" shows the whole list |
| Lists.FilterIgnoresTermCase | src/Campanhas.tsx:56-58 | the term's case does not matter |
| Lists.FilterIdempotent | src/Sistemas.tsx:53-55 | searching the result again changes nothing |
| Lists.Find | src/FichaPersonagem.tsx:39 | `find` yields nothing exactly when no element passes, else the first one that does |
| Lists.Normalise | src/App.tsx:20 | an array body is the list and any other JSON value is the empty list |
| Lists.ListAfterFetch | src/Campanhas.tsx:21-34 | an ok array reply replaces the list; an ok non-array or a non-ok reply empties it; a network failure or unreadable body keeps it |
| Lists.FetchFailureToast | src/Campanhas.tsx:24-33 | a toast is raised exactly when the reply is not ok and readable; the text depends on whether the reply was non-ok or failed |
| Lists.FetchToastMeansUnchanged | src/Sistemas.tsx:21-30 | a failure toast other than the non-ok one means the old list is still shown |
| App.PersonagensScreen.constructor | src/App.tsx:10-11 | the screen mounts with no characters and an empty term |
| App.PersonagensScreen.BuscaDados | src/App.tsx:15-24 | the list becomes `ListAfterFetch` of the reply, and the term is kept |
| App.PersonagensScreen.SetSearchTerm | src/App.tsx:58 | typing changes the term only |
| App.PersonagensScreen.ExibirTodos | src/App.tsx:61 | the term is cleared and every fetched character is shown |
| App.NothingFoundIff | src/App.tsx:68-76 | the "nenhum personagem" message shows exactly when no fetched name matches |
| App.CreateLinkIffMemberMenu | src/App.tsx:42 | the "Criar Novo Personagem" link shows exactly when the header shows the member menu |
| Campanhas.CampanhasScreen.constructor | src/Campanhas.tsx:17-18 | the screen mounts with no campaigns and an empty term |
| Campanhas.CampanhasScreen.BuscaCampanhas | src/Campanhas.tsx:21-34 | the list becomes `ListAfterFetch` of the reply, and the toast is `FetchFailureToast`'s |
| Campanhas.CampanhasScreen.ExcluirCampanha | src/Campanhas.tsx:40-54 | no DELETE without confirmation; success refetches the whole list; failure keeps it and reports |
| Campanhas.CampanhasScreen.SetSearchTerm | src/Campanhas.tsx:80 | typing changes the term only |
| Campanhas.CampanhasScreen.ExibirTodos | src/Campanhas.tsx:83 | the term is cleared and every fetched campaign is shown |
| Campanhas.CardControls | src/Campanhas.tsx:98-104 | a card has controls (among them edit and delete of that campaign) exactly for an administrator |
| Campanhas.CreateLinkIffCardControls | src/Campanhas.tsx:64 | the "Criar Nova Campanha" link shows exactly to the users who see the card controls, the administrators |
| Sistemas.SistemasScreen.constructor | src/Sistemas.tsx:14-15 | the screen mounts with no systems and an empty term |
| Sistemas.SistemasScreen.BuscaSistemas | src/Sistemas.tsx:18-31 | the list becomes `ListAfterFetch` of the reply, and the toast is `FetchFailureToast`'s |
| Sistemas.SistemasScreen.ExcluirSistema | src/Sistemas.tsx:37-51 | no DELETE without confirmation; success refetches; failure keeps the list and reports |
| Sistemas.SistemasScreen.SetSearchTerm | src/Sistemas.tsx:77 | typing changes the term only |
| Sistemas.SistemasScreen.ExibirTodos | src/Sistemas.tsx:80 | the term is cleared and every fetched system is shown |
| Sistemas.HeaderCells | src/Sistemas.tsx:90-96 | the header starts with ID and name and has the actions column exactly for an administrator |
| Sistemas.RowActionsIffHeaderColumn | src/Sistemas.tsx:93-106 | every row has its edit and delete cell exactly when the header has the actions column |
| Sistemas.EmptyRowSpansHeader | src/Sistemas.tsx:93-116 | the empty row spans exactly the header's columns |
| Http.StatusOutcome | src/Campanhas.tsx:47-51 | a status-only step succeeds exactly on an ok reply; otherwise it fails with the screen's text or the network message |
| Http.ErroOr | src/components/FormPersonagem.tsx:75 | a non-empty `erro` is the message, anything else gives the fallback |
| Http.SubmitOutcome | src/components/FormPersonagem.tsx:63-84 | a submit succeeds exactly on an ok reply; a refusal reports `erro` or the fallback; an unreadable body or network error reports its own message |
| Http.FailureToast | src/components/FormPersonagem.tsx:81-83 | a failed submit raises exactly one error toast with its message, and a success raises none |
| Http.SubmitMessageSource | src/Cadastro.tsx:30-33 | a readable refusal reports `erro` when it is truthy and the fallback otherwise |
| Http.ReadBody | src/FichaCampanha.tsx:27-28 | a load step yields the body exactly on an ok, readable reply; otherwise it fails with the screen's text or the exception's message |
| Http.Segment | src/GerenciarCampanhaPersonagens.tsx:56 | a missing route parameter is written into the path as "undefined" |
| Detail.DetailView | src/FichaPersonagem.tsx:82-92 | loading first, then a truthy error, then the missing record, then the record; an empty error message falls through |
| GerenciarCampanhaPersonagens.RosterIds | src/GerenciarCampanhaPersonagens.tsx:86 | the roster's ids in order, or none while no campaign is loaded |
| GerenciarCampanhaPersonagens.Available | src/GerenciarCampanhaPersonagens.tsx:87 | the available list is an order-preserving subsequence of all characters, holding exactly those whose id is not on the roster, each as many times as it was fetched |
| GerenciarCampanhaPersonagens.ColumnsDisjoint | src/GerenciarCampanhaPersonagens.tsx:86-87 | no available character shares an id with a roster entry |
| GerenciarCampanhaPersonagens.ColumnsCover | src/GerenciarCampanhaPersonagens.tsx:86-87 | every character is either available or has its id on the roster |
| GerenciarCampanhaPersonagens.NoCampaignAllAvailable | src/GerenciarCampanhaPersonagens.tsx:86 | with no campaign loaded every character is available |
| GerenciarCampanhaPersonagens.Fetched | src/GerenciarCampanhaPersonagens.tsx:23-48 | nothing at all without a truthy token and id, so `loading` stays as it was; otherwise the campaign, then the characters only if it loaded, the GETs in that order, the first failure toasted, and loading ended |
| GerenciarCampanhaPersonagens.FetchedShowsDelivered | src/GerenciarCampanhaPersonagens.tsx:33-87 | when both lists arrive, the screen shows exactly them, whatever it showed before |
| GerenciarCampanhaPersonagens.RefetchIdempotent | src/GerenciarCampanhaPersonagens.tsx:23-48 | fetching again with the same replies changes the state no further |
| GerenciarCampanhaPersonagens.RosterScreen.constructor | src/GerenciarCampanhaPersonagens.tsx:19-21 | the screen mounts with no campaign, no characters, and loading |
| GerenciarCampanhaPersonagens.RosterScreen.FetchData | src/GerenciarCampanhaPersonagens.tsx:23-48 | the new state, the GETs and the toast are exactly `Fetched`'s |
| GerenciarCampanhaPersonagens.RosterScreen.HandleAddPersonagem | src/GerenciarCampanhaPersonagens.tsx:54-70 | POSTs the id to the roster; on success the success toast, then exactly a `Fetched` refetch (its state, GETs and toast); a failure changes nothing and reports |
| GerenciarCampanhaPersonagens.RosterScreen.HandleRemovePersonagem | src/GerenciarCampanhaPersonagens.tsx:72-84 | DELETEs the roster entry; on success the success toast, then exactly a `Fetched` refetch; a failure changes nothing and reports |
| FichaPersonagem.SistemaLabel | src/FichaPersonagem.tsx:39-44 | the name of the first system with the character's id, or "Sistema não identificado" when none has it |
| FichaPersonagem.Loaded | src/FichaPersonagem.tsx:24-55 | loading ends; the character is kept exactly when both requests succeeded, and the error is cleared exactly then; a failure sets its message |
| FichaPersonagem.SheetIffBothLoaded | src/FichaPersonagem.tsx:82-94 | the sheet is shown exactly when both requests succeeded, and it shows the delivered character |
| FichaPersonagem.FailureView | src/FichaPersonagem.tsx:46-51 | a failure shows its message, or "nothing to show" when the message is empty |
| FichaPersonagem.FooterSistema | src/FichaPersonagem.tsx:157 | the footer shows the system name when truthy, else "ID " and the id |
| FichaPersonagem.FooterAfterLoad | src/FichaPersonagem.tsx:39-44 | after a full load the footer names the system, says it is unidentified, or shows the id only for a matching system with an empty name |
| FichaPersonagem.AdminIsNotOwner | src/FichaPersonagem.tsx:103 | the administrator role alone does not show the edit and delete controls |
| FichaPersonagem.OwnerControlsNeedOwnership | src/FichaPersonagem.tsx:103 | a guest never sees the edit and delete controls; a signed-in user sees them exactly on the characters whose owner id is theirs |
| FichaPersonagem.FichaPersonagemScreen.constructor | src/FichaPersonagem.tsx:19-22 | the screen mounts loading, with nothing loaded |
| FichaPersonagem.FichaPersonagemScreen.BuscaDados | src/FichaPersonagem.tsx:24-55 | the new state is `Loaded`'s; the systems are requested only after the character arrived |
| FichaPersonagem.FichaPersonagemScreen.ExcluirPersonagem | src/FichaPersonagem.tsx:57-79 | nothing without a loaded character or a confirmation; otherwise a DELETE of that character; success toasts and goes to "/", failure reports and stays |
| FichaCampanha.Loaded | src/FichaCampanha.tsx:17-43 | loading ends. Without a token: the sign-in error. With a token and no id: nothing else changes. Otherwise the campaign or the failure message |
| FichaCampanha.SignedOutSeesLoginMessage | src/FichaCampanha.tsx:39-41 | without a token the page shows the sign-in message |
| FichaCampanha.DetailIffLoaded | src/FichaCampanha.tsx:23-35 | with a token and id the detail shows exactly when the campaign was delivered |
| FichaCampanha.NoIdShowsNothing | src/FichaCampanha.tsx:39-41 | with a token and no id a fresh page shows "nothing to show" |
| FichaCampanha.Request | src/FichaCampanha.tsx:18-26 | the campaign is requested exactly with a truthy token and id |
| FichaCampanha.RosterLinks | src/FichaCampanha.tsx:74-81 | one link per roster character, in order, to its sheet |
| FichaCampanha.EmptyRosterIffNoCards | src/FichaCampanha.tsx:74-85 | the empty-roster message (`ShowsEmptyRoster`) shows exactly when there is no card |
| FichaCampanha.FichaCampanhaScreen.constructor | src/FichaCampanha.tsx:13-15 | the page mounts loading, with no campaign and no error |
| FichaCampanha.FichaCampanhaScreen.BuscaDados | src/FichaCampanha.tsx:17-43 | the new state is `Loaded`'s and the request made is `Request`'s |
| Forms.ParseAtributos | src/components/FormPersonagem.tsx:44-53 | an empty text is null without parsing; a non-empty one stops the submit exactly when it does not parse |
| Forms.PayloadOf | src/components/FormPersonagem.tsx:55-61 | the texts are copied, `sistema_id` is `Number()` of the selection, `atributos` is the gate's value |
| Forms.OrEmpty | src/components/FormEditarPersonagem.tsx:59-60 | a null text is "" |
| Forms.Submitted | src/components/FormPersonagem.tsx:63-84 | the request is sent; it navigates exactly on an ok reply, with the success toast, else raises the failure message |
| Forms.SubmitPersonagem | src/components/FormPersonagem.tsx:43-84 | invalid JSON stops with one toast; otherwise the payload is sent |
| Forms.InvalidJsonSendsNothing | src/FormEditarPersonagem.tsx:52-59 | unparseable non-empty `atributosJSON` sends nothing and does not navigate |
| Forms.ValidJsonIsSent | src/FormEditarPersonagem.tsx:51-67 | empty or parseable `atributosJSON` always sends, with null for empty text |
| FormPersonagem.SistemasAfterFetch | src/components/FormPersonagem.tsx:28-41 | only a truthy token and an ok, readable reply replace the options |
| FormPersonagem.FormPersonagemScreen.constructor | src/components/FormPersonagem.tsx:26 | the form starts with no system options |
| FormPersonagem.FormPersonagemScreen.BuscaSistemas | src/components/FormPersonagem.tsx:28-41 | the options become `SistemasAfterFetch`'s, and a GET is sent exactly with a truthy token |
| FormPersonagem.FailedFetchLeavesNoOptions | src/components/FormPersonagem.tsx:34-37 | a failed systems request leaves a fresh form with no options |
| FormPersonagem.CriaPersonagem | src/components/FormPersonagem.tsx:43-84 | invalid JSON sends nothing; otherwise a POST to /personagens of the payload, navigating to "/" exactly on success |
| FormPersonagem.CreateFailureMessage | src/components/FormPersonagem.tsx:73-76 | a refused create reports `erro` or "Falha ao criar personagem" and stays |
| FormEditarPersonagem.Prefill | src/FormEditarPersonagem.tsx:36-39 | the form gets the record's fields, and `atributosJSON` is the stringified value or "" when it is absent |
| FormEditarPersonagem.CarregarDados | src/FormEditarPersonagem.tsx:25-48 | loads exactly with a truthy token and id; resets the form on success, toasts on failure |
| FormEditarPersonagem.SalvaAlteracoes | src/FormEditarPersonagem.tsx:50-90 | invalid JSON sends nothing; otherwise a PUT to the character; success goes to its sheet, refusal reports `erro` or the fallback |
| FormEditarPersonagem.PrefillSubmitRoundTrip | src/FormEditarPersonagem.tsx:36-39 | saving an untouched prefilled form sends the loaded character back unchanged |
| FormEditarPersonagemComponent.Prefill | src/components/FormEditarPersonagem.tsx:57-63 | the form gets the record's fields; `atributosJSON` is always stringified, so null becomes "null" |
| FormEditarPersonagemComponent.FirstCampanha | src/components/FormEditarPersonagem.tsx:65-69 | the first campaign link's id, or null when there is none |
| FormEditarPersonagemComponent.SelectCampanha | src/components/FormEditarPersonagem.tsx:178 | an empty value is null, any other value is `Number(value)` |
| FormEditarPersonagemComponent.SelectValue | src/components/FormEditarPersonagem.tsx:177 | the select shows "" for null or 0 and the id otherwise |
| FormEditarPersonagemComponent.ChoosingAnOptionSelectsIt | src/components/FormEditarPersonagem.tsx:178-181 | choosing a campaign's option selects its id |
| FormEditarPersonagemComponent.SelectShowsSelection | src/components/FormEditarPersonagem.tsx:177-178 | what the select shows reads back as the selection |
| FormEditarPersonagemComponent.Loaded | src/components/FormEditarPersonagem.tsx:41-93 | loading always ends. Without a token only the sign-in error is set. A failed character read sets its message and nothing else. Otherwise the form and selection come from the character, the systems are installed when they arrive even if the campaigns fail, the campaigns only when both arrive, the error is the first failure's message, and a full success keeps the previous error |
| FormEditarPersonagemComponent.LoadedCharacterIsPrefilled | src/components/FormEditarPersonagem.tsx:50-69 | a delivered character fills the form and preselects its first campaign |
| FormEditarPersonagemComponent.FormShownIffAllLoaded | src/components/FormEditarPersonagem.tsx:86-90 | a fresh form has no error exactly when every request made succeeded, and then holds what was fetched |
| FormEditarPersonagemComponent.EditScreen.constructor | src/components/FormEditarPersonagem.tsx:34-39 | the form mounts loading with nothing loaded |
| FormEditarPersonagemComponent.EditScreen.FetchData | src/components/FormEditarPersonagem.tsx:41-93 | the new state is `Loaded`'s; no request without a token; otherwise the GETs are the character (when there is an id), then the systems unless the character failed, then the campaigns unless an earlier step failed |
| FormEditarPersonagemComponent.EditScreen.OnSelectCampanha | src/components/FormEditarPersonagem.tsx:178 | the selection becomes `SelectCampanha` of the value and nothing else changes |
| FormEditarPersonagemComponent.AtualizaPersonagem | src/components/FormEditarPersonagem.tsx:95-138 | invalid JSON sends nothing; otherwise a PUT with the payload and the selected campaign; success goes to the sheet |
| FormEditarPersonagemComponent.NullAtributosRoundTrip | src/components/FormEditarPersonagem.tsx:62 | an untouched save of a character with null `atributos` sends null back |
| FormCampanha.Target | src/FormCampanha.tsx:67-68 | editing PUTs to the campaign and creating POSTs to /campanhas |
| FormCampanha.PayloadOf | src/FormCampanha.tsx:70-74 | the texts are copied, `sistema_id` is numeric, and an empty `data_inicio` becomes null |
| FormCampanha.OnSubmit | src/FormCampanha.tsx:66-96 | the body goes to `Target`; both modes go to /campanhas on success with their own text; a refusal reports `erro` or the fallback |
| FormCampanha.ModesSendSameBody | src/FormCampanha.tsx:67-74 | the mode changes the method and URL, never the body |
| FormCampanha.SistemasStep | src/FormCampanha.tsx:35-40 | a non-ok systems reply is skipped; a readable one yields the list; a failure stops the load |
| FormCampanha.FormCampanhaScreen.constructor | src/FormCampanha.tsx:27 | the form starts with no options and no prefill |
| FormCampanha.FormCampanhaScreen.CarregarDados | src/FormCampanha.tsx:31-64 | nothing without a token; a non-ok systems reply keeps the options; the campaign is fetched only when editing; failures are toasted |
| FormSistema.Target | src/FormSistema.tsx:43-44 | editing PUTs to the system and creating POSTs to /sistemas |
| FormSistema.OnSubmit | src/FormSistema.tsx:42-66 | the form data is the body unchanged; success goes to /sistemas; a refusal reports `erro` or the fallback |
| FormSistema.FindById | src/FormSistema.tsx:30 | the first system whose id equals `Number(id)`; a NaN id matches none |
| FormSistema.CarregarDados | src/FormSistema.tsx:21-40 | loads exactly when editing with a token; resets the form only to a matching system; a failure toasts |
| FormSistema.PrefillFindsTheRoutedSystem | src/FormSistema.tsx:30-33 | editing a system prefills exactly that system |
| FormSistema.NoMatchNoReset | src/FormSistema.tsx:31-33 | with no matching system the form is not reset and nothing is reported |
| Cadastro.ConfirmacaoErro | src/Cadastro.tsx:73 | the confirmation is valid exactly when it equals the password, else "As senhas não coincidem" |
| Cadastro.RegistraUsuario | src/Cadastro.tsx:18-42 | POSTs name, password and role "JOGADOR" to /usuarios; success goes to /login; a refusal reports `erro` or the fallback |
| Cadastro.Submit | src/Cadastro.tsx:53-73 | nothing is sent while the confirmation is invalid |
| Cadastro.SentRegistrationIsConfirmedPlayer | src/Cadastro.tsx:23-27 | a sent registration was confirmed and never asks for the administrator role |

## Left out

- Network transport (`fetch`, the base URL, headers, the bearer header) is not modelled. Each reply is an input, and each handler is one atomic step: async interleavings, late replies after unmount and double clicks are not modelled.
- `jwtDecode`, `JSON.parse` and `JSON.stringify` are library code. They are parameters of the model. `Login.KeptLoginSurvivesReload` requires that the decoder rejects "", and the prefill round trips require that parsing reads back what stringifying wrote.
- Toasts keep only their kind and text. JSX, CSS, the menu's markup and the recharts dashboard are not modelled.
- src/Dashboard.tsx, src/UserList.tsx, src/UserActivityLog.tsx and src/UserEdit.tsx are not part of this model. They only fetch and render behind a token guard.
- src/main.tsx is not part of this model. It only configures the router, wiring five routes without the administrator guard.
- src/utils/JogadorType.ts is not part of this model. Only the claim fields the screens read are modelled (`Base.Claims`).
- Text.Lower: lowers ASCII letters only, not the full Unicode `toLowerCase`.
- Text.ToNumber: reads decimal digit strings only. Whitespace, signs, fractions, exponents and hexadecimal, which `Number()` also accepts, read as NaN here.
- Text.IntDecimal: a negative id is written with a minus sign, but no lemma reads one back, since `ToNumber` has no signs.
- FormCampanha.PayloadOf: `data_inicio` is sent as the typed text instead of a `Date`, and the prefill's date formatting is left out, because dates and locale are host libraries.
- FormCampanha.FormCampanhaScreen.CarregarDados: the prefill is recorded as the fetched record. The form fields it fills are not modelled.
- FormEditarPersonagem.Prefill: a null `raca` or `descricao` is taken to reach the submit as "". The source spreads the record into `reset`, where the field holds null until edited.
- FormEditarPersonagem.Prefill: a falsy but non-null `atributos` (0, false, "") is treated as present. `Json` does not model JSON truthiness.
- FormEditarPersonagemComponent.SelectCampanha: a NaN selection is `None`, like null. Both are written as null in the request body.
- FormEditarPersonagemComponent.PersonagemVinculado: this form reads campaign links as `{ campanha_id }`, while the character sheet reads `{ campanha: { id, nome } }`. Each screen is modelled with the shape it declares.
- GerenciarCampanhaPersonagens.RosterScreen.FetchData: the character list body is taken to be an array. The source assigns it without a check, and a non-array body would fail later at render.
- FormSistema.CarregarDados: the systems body is taken to be an array. A non-array body would make `find` throw a TypeError, which the catch toasts; that toast is not modelled.
- FormSistema.OnSubmit: the form values are the one `nome` field. In edit mode `reset` also puts the record's other keys (such as `id`) into the values, and the source sends them in the body; that is not modelled.
- FormCampanha.OnSubmit: the form values are the typed fields. In edit mode `reset` also puts the record's other keys (`id`, `sistema`, `personagens`) into the values, and `...data` sends them in the body; that is not modelled.
- FichaPersonagem.FichaPersonagemScreen.BuscaDados: the systems body is taken to be an array. A non-array body would make `find` throw, and that is not modelled.
- Cadastro.Submit: only the confirmation rule gates the submit. The browser's `required` checks on empty fields are not modelled.
