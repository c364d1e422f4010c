/** The login form's submit handler, `verificaLogin`. */
module Login {
  import opened Base
  import opened AuthContext
  import opened Browser
  import opened Layout

  /** The form's fields; `manter` is the "stay signed in" box. */
  datatype LoginInput = LoginInput(nome_usuario: string, senha: string, manter: bool)

  /** The JSON body posted to `/login`: the two credentials and nothing else. */
  datatype LoginRequest = LoginRequest(nome_usuario: string, senha: string)

  /** The success body `{ token }`; the field may be missing. */
  datatype LoginReply = LoginReply(token: Option<string>)

  /** A token that made it through every step of the success path. */
  datatype Grant = Grant(token: string, claims: Claims)

  const LoginFailureText := "Erro: Nome de usuário ou senha incorretos."

  /** The request the handler sends for a given form. */
  function RequestFor(input: LoginInput): (r: LoginRequest)
    ensures r.nome_usuario == input.nome_usuario && r.senha == input.senha
  {
    LoginRequest(input.nome_usuario, input.senha)
  }

  /** The success path is taken exactly when the request resolves with an ok
      status, the body reads as `{ token }` with a token, and that token
      decodes; any other outcome throws into the catch block. */
  function Granted(resp: Response<LoginReply>, decode: string -> Option<Claims>): (g: Option<Grant>)
    ensures g.Some? ==> resp.Reply? && resp.ok && resp.body == Parsed(LoginReply(Some(g.value.token)))
                        && decode(g.value.token) == Some(g.value.claims)
    ensures (resp.Reply? && resp.ok && resp.body.Parsed? && resp.body.value.token.Some?
             && decode(resp.body.value.token.value).Some?) ==> g.Some?
  {
    match resp
    case Rejected(_) => None
    case Reply(ok, body) =>
      if !ok then None
      else match body
        case Malformed(_) => None
        case Parsed(reply) =>
          match reply.token
          case None => None
          case Some(t) =>
            match decode(t)
            case None => None
            case Some(claims) => Some(Grant(t, claims))
  }

  /** The session, storage and location after one submit. */
  function AfterLogin(w: World, manter: bool, resp: Response<LoginReply>, decode: string -> Option<Claims>): World
  {
    match Granted(resp, decode)
    case Some(g) =>
      World(Session(Some(g.claims), Some(g.token)),
            if manter then w.storage[TokenKey := g.token] else w.storage,
            "/")
    case None =>
      World(LoggedOut, w.storage - {TokenKey}, w.location)
  }

  /** The handler as the form runs it. It returns the request it posted and
      the toast it raised, if any. */
  method VerificaLogin(store: JogadorStore, host: Host, input: LoginInput,
                       resp: Response<LoginReply>, decode: string -> Option<Claims>)
    returns (request: LoginRequest, toast: Option<Toast>)
    modifies store, host
    ensures request == RequestFor(input)
    ensures WorldOf(store, host) == AfterLogin(old(WorldOf(store, host)), input.manter, resp, decode)
    ensures toast == if Granted(resp, decode).Some? then None else Some(ErrorToast(LoginFailureText))
  {
    request := LoginRequest(input.nome_usuario, input.senha);
    var token: Option<string> := None;
    var claims: Option<Claims> := None;
    if resp.Reply? && resp.ok && resp.body.Parsed? {
      token := resp.body.value.token;
      if token.Some? {
        claims := decode(token.value);
      }
    }
    if claims.Some? {
      store.SetToken(token);
      store.SetJogador(claims);
      if input.manter {
        host.SetItem(TokenKey, token.value);
      }
      host.Navigate("/");
      toast := None;
    } else {
      toast := Some(ErrorToast(LoginFailureText));
      store.SetToken(None);
      store.SetJogador(None);
      host.RemoveItem(TokenKey);
    }
  }

  /** A non-ok status always takes the failure path. */
  lemma NotOkFails(w: World, manter: bool, resp: Response<LoginReply>, decode: string -> Option<Claims>)
    requires resp.Reply? && !resp.ok
    ensures AfterLogin(w, manter, resp, decode) == World(LoggedOut, w.storage - {TokenKey}, w.location)
  {
  }

  /** Any failure, a decode error included, leaves nobody signed in, no
      stored token, and the location where it was. */
  lemma FailureClears(w: World, manter: bool, resp: Response<LoginReply>, decode: string -> Option<Claims>)
    requires Granted(resp, decode).None?
    ensures AfterLogin(w, manter, resp, decode).session == LoggedOut
    ensures TokenKey !in AfterLogin(w, manter, resp, decode).storage
    ensures AfterLogin(w, manter, resp, decode).location == w.location
  {
  }

  /** On success the store holds the returned token and its decoded claims,
      and the token is written to storage only when `manter` is set. */
  lemma SuccessSignsIn(w: World, manter: bool, resp: Response<LoginReply>, decode: string -> Option<Claims>, t: string)
    requires resp == Reply(true, Parsed(LoginReply(Some(t)))) && decode(t).Some?
    ensures AfterLogin(w, manter, resp, decode).session == Session(decode(t), Some(t))
    ensures manter ==> AfterLogin(w, manter, resp, decode).storage == w.storage[TokenKey := t]
    ensures !manter ==> AfterLogin(w, manter, resp, decode).storage == w.storage
    ensures AfterLogin(w, manter, resp, decode).location == "/"
  {
  }

  /** The location moves only on the success path. */
  lemma NavigatesOnlyOnSuccess(w: World, manter: bool, resp: Response<LoginReply>, decode: string -> Option<Claims>)
    requires AfterLogin(w, manter, resp, decode).location != w.location
    ensures Granted(resp, decode).Some?
    ensures AfterLogin(w, manter, resp, decode).location == "/"
  {
  }

  /** Every outcome of a login leaves the store consistent with the decoder. */
  lemma LoginEstablishesConsistency(w: World, manter: bool, resp: Response<LoginReply>, decode: string -> Option<Claims>)
    ensures Consistent(AfterLogin(w, manter, resp, decode).session, decode)
  {
  }

  /** A "stay signed in" login survives a reload: a fresh store restored from
      the storage the login left behind holds the same session. The decoder
      is required to reject the empty string, as `jwtDecode` does. */
  lemma KeptLoginSurvivesReload(w: World, resp: Response<LoginReply>, decode: string -> Option<Claims>)
    requires decode("").None?
    requires Granted(resp, decode).Some?
    ensures var after := AfterLogin(w, true, resp, decode);
      Restored(World(LoggedOut, after.storage, after.location), decode).session == after.session
  {
    var g := Granted(resp, decode).value;
    assert g.token != "";
  }

  /** A login without "stay signed in", from a storage holding no token,
      does not survive a reload. */
  lemma UnkeptLoginEndsWithReload(w: World, resp: Response<LoginReply>, decode: string -> Option<Claims>)
    requires TokenKey !in w.storage
    ensures var after := AfterLogin(w, false, resp, decode);
      Restored(World(LoggedOut, after.storage, after.location), decode).session == LoggedOut
  {
  }
}
