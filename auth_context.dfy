/** The session store (`useJogadorStore`): the decoded identity and the
    bearer token, both nullable, overwritten by three setters. */
module AuthContext {
  import opened Base

  /** A snapshot of the store's two fields. */
  datatype Session = Session(jogador: Option<Claims>, token: Option<string>)

  /** The store as it is created, and as `deslogaJogador` leaves it. */
  const LoggedOut := Session(None, None)

  /** The session agrees with the token decoder: either nobody is signed in,
      or a token is held and the identity is exactly what that token decodes
      to. Every path of restore, login and logout leaves the store in such a
      state. */
  predicate Consistent(s: Session, decode: string -> Option<Claims>)
  {
    (s.jogador.None? && s.token.None?) ||
    (s.token.Some? && s.jogador.Some? && decode(s.token.value) == s.jogador)
  }

  class JogadorStore {
    var jogador: Option<Claims>
    var token: Option<string>

    function State(): Session
      reads this
    {
      Session(jogador, token)
    }

    /** The store starts with both fields null. */
    constructor ()
      ensures State() == LoggedOut
    {
      jogador := None;
      token := None;
    }

    /** `setToken`: replaces the token, leaves the identity alone. */
    method SetToken(t: Option<string>)
      modifies this
      ensures State() == Session(old(jogador), t)
    {
      token := t;
    }

    /** `setJogador`: replaces the identity, leaves the token alone. */
    method SetJogador(j: Option<Claims>)
      modifies this
      ensures State() == Session(j, old(token))
    {
      jogador := j;
    }

    /** `deslogaJogador`: both fields null whatever they held, so a second
        call changes nothing. */
    method DeslogaJogador()
      modifies this
      ensures State() == LoggedOut
    {
      jogador := None;
      token := None;
    }
  }
}
