/** The root shell's one-shot effect: on application load, adopt a token left
    in durable storage by an earlier "stay signed in" login. */
module Layout {
  import opened Base
  import opened AuthContext
  import opened Browser

  /** What the restore effect does to the session and storage. A stored
      token is only looked at when it is truthy and the store holds no truthy
      token; it is then adopted with its decoded claims, or, if it does not
      decode, purged and the store cleared. The location is never touched. */
  function Restored(w: World, decode: string -> Option<Claims>): (r: World)
    ensures r.location == w.location
  {
    var stored := Lookup(w.storage, TokenKey);
    if Truthy(stored) && !Truthy(w.session.token) then
      match decode(stored.value)
      case Some(claims) => w.(session := Session(Some(claims), stored))
      case None => World(LoggedOut, w.storage - {TokenKey}, w.location)
    else
      w
  }

  /** The effect itself, step by step as the shell runs it. */
  method Restore(store: JogadorStore, host: Host, decode: string -> Option<Claims>)
    modifies store, host
    ensures WorldOf(store, host) == Restored(old(WorldOf(store, host)), decode)
  {
    var storedToken := host.GetItem(TokenKey);
    if Truthy(storedToken) && !Truthy(store.token) {
      var decoded := decode(storedToken.value);
      if decoded.Some? {
        store.SetToken(storedToken);
        store.SetJogador(decoded);
      } else {
        host.RemoveItem(TokenKey);
        store.SetToken(None);
        store.SetJogador(None);
      }
    }
  }

  /** With no token in storage, restore changes nothing. */
  lemma RestoreWithoutStoredToken(w: World, decode: string -> Option<Claims>)
    requires TokenKey !in w.storage
    ensures Restored(w, decode) == w
  {
  }

  /** A token already in memory wins over whatever storage holds. */
  lemma RestoreKeepsLiveToken(w: World, decode: string -> Option<Claims>)
    requires Truthy(w.session.token)
    ensures Restored(w, decode) == w
  {
  }

  /** A stored token that decodes becomes the session, claims and all, and
      storage is left as it was. */
  lemma RestoreAdoptsToken(w: World, decode: string -> Option<Claims>, t: string)
    requires Lookup(w.storage, TokenKey) == Some(t) && t != ""
    requires !Truthy(w.session.token)
    requires decode(t).Some?
    ensures Restored(w, decode).session == Session(decode(t), Some(t))
    ensures Restored(w, decode).storage == w.storage
  {
  }

  /** A stored token that does not decode is purged and the session is left
      empty: a decode failure never escapes the effect. */
  lemma RestorePurgesUndecodable(w: World, decode: string -> Option<Claims>, t: string)
    requires Lookup(w.storage, TokenKey) == Some(t) && t != ""
    requires !Truthy(w.session.token)
    requires decode(t).None?
    ensures Restored(w, decode).session == LoggedOut
    ensures TokenKey !in Restored(w, decode).storage
    ensures Restored(w, decode).storage == w.storage - {TokenKey}
  {
  }

  /** Running the effect a second time changes nothing more. */
  lemma RestoreIdempotent(w: World, decode: string -> Option<Claims>)
    ensures Restored(Restored(w, decode), decode) == Restored(w, decode)
  {
  }

  /** Restore keeps the store consistent with the decoder. */
  lemma RestorePreservesConsistency(w: World, decode: string -> Option<Claims>)
    requires Consistent(w.session, decode)
    ensures Consistent(Restored(w, decode).session, decode)
  {
  }
}
