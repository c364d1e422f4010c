/** The navigation bar: which menu it shows, and its logout action. */
module Titulo {
  import opened Base
  import opened AuthContext
  import opened Browser
  import opened Layout
  import opened Roles

  datatype Menu = MemberMenu | GuestMenu

  /** The member links and "Sair" appear for a signed-in identity with a
      truthy user id; everyone else gets the guest links and "Login". */
  function MenuFor(jogador: Option<Claims>): (m: Menu)
    ensures m == MemberMenu <==> jogador.Some? && jogador.value.usuarioId != 0
  {
    if IsSignedIn(jogador) then MemberMenu else GuestMenu
  }

  /** What `jogadorSair` does: nothing at all when the confirmation is
      declined; otherwise the store is cleared, the stored token is removed
      when it is truthy (the source tests `getItem` before removing), and the
      location becomes "/login". */
  function AfterLogout(w: World, confirmed: bool): (r: World)
  {
    if !confirmed then w
    else
      World(LoggedOut,
            if Truthy(Lookup(w.storage, TokenKey)) then w.storage - {TokenKey} else w.storage,
            "/login")
  }

  method JogadorSair(store: JogadorStore, host: Host, confirmed: bool)
    modifies store, host
    ensures WorldOf(store, host) == AfterLogout(old(WorldOf(store, host)), confirmed)
  {
    if confirmed {
      store.DeslogaJogador();
      if Truthy(host.GetItem(TokenKey)) {
        host.RemoveItem(TokenKey);
      }
      host.Navigate("/login");
    }
  }

  /** Declining the confirmation changes nothing. */
  lemma DeclinedLogoutChangesNothing(w: World)
    ensures AfterLogout(w, false) == w
  {
  }

  /** A confirmed logout leaves nobody signed in, no truthy stored token, the
      rest of storage untouched, and the login screen showing. */
  lemma ConfirmedLogoutSignsOut(w: World)
    ensures AfterLogout(w, true).session == LoggedOut
    ensures !Truthy(Lookup(AfterLogout(w, true).storage, TokenKey))
    ensures forall k :: k != TokenKey ==> Lookup(AfterLogout(w, true).storage, k) == Lookup(w.storage, k)
    ensures AfterLogout(w, true).location == "/login"
  {
  }

  /** After a confirmed logout a reload restores nobody: the session does not
      come back from storage. */
  lemma LogoutSurvivesReload(w: World, decode: string -> Option<Claims>)
    ensures var after := AfterLogout(w, true);
      Restored(World(LoggedOut, after.storage, after.location), decode).session == LoggedOut
  {
  }

  /** Logging out, confirmed or not, keeps the store consistent with the
      decoder: a declined logout leaves it as it was, a confirmed one leaves
      nobody signed in. */
  lemma LogoutPreservesConsistency(w: World, confirmed: bool, decode: string -> Option<Claims>)
    requires Consistent(w.session, decode)
    ensures Consistent(AfterLogout(w, confirmed).session, decode)
  {
  }

  /** After a confirmed logout the guest menu is shown. */
  lemma LogoutShowsGuestMenu(w: World)
    ensures MenuFor(AfterLogout(w, true).session.jogador) == GuestMenu
  {
  }
}
