/** The route guard that admits only administrators to a subtree. */
module ProtectedRoute {
  import opened Base
  import opened AuthContext
  import opened Roles

  datatype RouteDecision = Redirect(to: string) | RenderOutlet

  /** The guard's decision for the current store: anyone whose role is not
      exactly "ADMIN", nobody signed in included, is sent home with a
      replacing redirect; an administrator sees the nested routes. */
  function Guard(s: Session): (d: RouteDecision)
    ensures d == RenderOutlet <==> RoleOf(s.jogador) == Some(AdminRole)
    ensures d.Redirect? ==> d.to == "/"
  {
    if !IsAdmin(s.jogador) then Redirect("/") else RenderOutlet
  }

  /** The decision depends on the role alone, never on the token. */
  lemma GuardReadsOnlyRole(s1: Session, s2: Session)
    requires RoleOf(s1.jogador) == RoleOf(s2.jogador)
    ensures Guard(s1) == Guard(s2)
  {
  }

  /** The store as it starts, and as logout leaves it, is turned away. */
  lemma GuardRejectsLoggedOut()
    ensures Guard(LoggedOut) == Redirect("/")
  {
  }
}
