/** The identity predicates the screens use to decide what to show. Each
    screen writes them inline; they are stated once here. */
module Roles {
  import opened Base

  /** `jogador?.tipo_usuario`: the role, or undefined when nobody is signed
      in. */
  function RoleOf(jogador: Option<Claims>): (r: Option<string>)
    ensures r.Some? <==> jogador.Some?
  {
    match jogador
    case Some(c) => Some(c.tipo_usuario)
    case None => None
  }

  /** `jogador?.tipo_usuario === "ADMIN"`. */
  predicate IsAdmin(jogador: Option<Claims>)
  {
    RoleOf(jogador) == Some(AdminRole)
  }

  /** `jogador && jogador.usuarioId`: someone is signed in with a non-zero
      (truthy) user id. */
  predicate IsSignedIn(jogador: Option<Claims>)
  {
    jogador.Some? && jogador.value.usuarioId != 0
  }

  /** `jogador && jogador.usuarioId === usuario_id`: the signed-in user owns
      the record. */
  predicate IsOwner(jogador: Option<Claims>, usuario_id: int)
  {
    jogador.Some? && jogador.value.usuarioId == usuario_id
  }

  /** Only a signed-in identity can be an administrator or an owner of a
      record with a non-zero owner id. */
  lemma GatesNeedIdentity(jogador: Option<Claims>, usuario_id: int)
    ensures IsAdmin(jogador) ==> jogador.Some?
    ensures IsOwner(jogador, usuario_id) && usuario_id != 0 ==> IsSignedIn(jogador)
  {
  }
}
