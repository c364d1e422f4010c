/** The parts of the browser the session screens touch: `localStorage` (a map
    from string keys to string values) and the router's current location. */
module Browser {
  import opened Base
  import opened AuthContext

  /** The one durable key: the raw bearer token. */
  const TokenKey := "rpg_token"

  /** Everything the session lifecycle reads and writes, as one value. */
  datatype World = World(session: Session, storage: map<string, string>, location: string)

  /** `localStorage.getItem(key)`: the stored string, or null. */
  function Lookup(storage: map<string, string>, key: string): (r: Option<string>)
    ensures r.Some? <==> key in storage
    ensures r.Some? ==> r.value == storage[key]
  {
    if key in storage then Some(storage[key]) else None
  }

  class Host {
    var storage: map<string, string>
    var location: string

    constructor (storage0: map<string, string>, location0: string)
      ensures storage == storage0 && location == location0
    {
      storage := storage0;
      location := location0;
    }

    function GetItem(key: string): Option<string>
      reads this
    {
      Lookup(storage, key)
    }

    /** `localStorage.setItem`. */
    method SetItem(key: string, value: string)
      modifies this
      ensures storage == old(storage)[key := value] && location == old(location)
    {
      storage := storage[key := value];
    }

    /** `localStorage.removeItem`: removing an absent key is harmless. */
    method RemoveItem(key: string)
      modifies this
      ensures storage == old(storage) - {key} && location == old(location)
    {
      storage := storage - {key};
    }

    /** `navigate(to)`. */
    method Navigate(to: string)
      modifies this
      ensures location == to && storage == old(storage)
    {
      location := to;
    }
  }

  /** The store and the host seen together. */
  function WorldOf(store: JogadorStore, host: Host): World
    reads store, host
  {
    World(store.State(), host.storage, host.location)
  }
}
