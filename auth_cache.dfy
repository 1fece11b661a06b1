/**
 * The memcache-backed token cache of auth/cache.go. The memcache server is
 * modelled as a map from key to item held by the cacher; the outcome of each
 * call that can fail on the wire (`Set`, `Get`, `Delete`) is an input, and so
 * are the clock-derived TTL of a stored user and the token decoder
 * `FromSessionToken`.
 */
module AuthCache {
  import opened Common

  /** A Go `int32`, the type of a memcache item's expiration. */
  type Int32 = x: int | -0x8000_0000 <= x < 0x8000_0000

  /** The bytes of the string "invalid", stored in place of a token for an invalidated session. */
  const InvalidPlaceholder: seq<Byte> := [0x69, 0x6e, 0x76, 0x61, 0x6c, 0x69, 0x64]
  /** Seconds an invalidation is kept. */
  const InvalidateTimeout: Int32 := 3600

  /** A logged-in user: its session id, its session token and its expiry (None: the zero time). */
  datatype User = User(sessId: string, token: seq<Byte>, expiry: Option<int>)

  /** `memcache.Item`. */
  datatype Item = Item(value: seq<Byte>, expiration: Int32)

  /** The outcome of `mc.Get`: the item, `ErrCacheMiss`, or any other error. */
  datatype Got = Found(item: Item) | Miss | Failed(err: Error)

  /** The triple `Fetch` returns: the user (nil when None), whether the cache knew the session, the error. */
  datatype Fetched = Fetched(user: Option<User>, hit: bool, err: Option<Error>)

  /** `mc.Get` on the modelled store; `fault` is a failure of the call itself. */
  function Get(store: map<string, Item>, key: string, fault: Option<Error>): (got: Got)
    ensures fault.Some? ==> got == Failed(fault.value)
    ensures fault.None? ==> (got.Found? <==> key in store) && (got.Found? ==> got.item == store[key])
    ensures fault.None? ==> !got.Failed?
  {
    if fault.Some? then Failed(fault.value)
    else if key in store then Found(store[key])
    else Miss
  }

  /**
   * `doFetch` after its `Get`: any error other than a miss is returned; a cache
   * miss is a miss without error; the invalid placeholder is a hit without a
   * user; a value that does not decode is treated as a miss; a value that
   * decodes is a hit with the user.
   */
  function Classify(sessID: string, got: Got, decode: (string, seq<Byte>) -> Result<User>): (r: Fetched)
    ensures r.err.Some? <==> got.Failed?
    ensures got.Failed? ==> r == Fetched(None, false, Some(got.err))
    ensures got.Miss? ==> r == Fetched(None, false, None)
    ensures r.hit <==> got.Found? && (got.item.value == InvalidPlaceholder || decode(sessID, got.item.value).Ok?)
    ensures r.user.Some? <==>
              got.Found? && got.item.value != InvalidPlaceholder && decode(sessID, got.item.value).Ok?
    ensures r.user.Some? ==> r.user.value == decode(sessID, got.item.value).value
  {
    match got
    case Failed(e) => Fetched(None, false, Some(e))
    case Miss => Fetched(None, false, None)
    case Found(it) =>
      if it.value == InvalidPlaceholder then Fetched(None, true, None)
      else
        match decode(sessID, it.value)
        case Err(_) => Fetched(None, false, None)
        case Ok(u) => Fetched(Some(u), true, None)
  }

  /** The expiration `doStore` gives a user's item: none for the zero expiry, else the seconds left. */
  function StoreTtl(u: User, secondsLeft: Int32): (ttl: Int32)
    ensures u.expiry.None? ==> ttl == 0
    ensures u.expiry.Some? ==> ttl == secondsLeft
  {
    if u.expiry.None? then 0 else secondsLeft
  }

  /** After an invalidation, a fetch of the same session is a hit that carries no user. */
  lemma InvalidateThenFetch(store: map<string, Item>, sessID: string, decode: (string, seq<Byte>) -> Result<User>)
    ensures Classify(sessID, Get(store[sessID := Item(InvalidPlaceholder, InvalidateTimeout)], sessID, None), decode)
            == Fetched(None, true, None)
  {
  }

  /**
   * Storing a user whose token decodes makes the next fetch a hit with the
   * decoded user, unless the token is byte-equal to the invalid placeholder,
   * in which case the stored user reads back as invalidated.
   */
  lemma StoreThenFetch(store: map<string, Item>, u: User, ttl: Int32, decode: (string, seq<Byte>) -> Result<User>)
    requires decode(u.sessId, u.token).Ok?
    ensures var r := Classify(u.sessId, Get(store[u.sessId := Item(u.token, ttl)], u.sessId, None), decode);
            && (u.token != InvalidPlaceholder ==> r == Fetched(Some(decode(u.sessId, u.token).value), true, None))
            && (u.token == InvalidPlaceholder ==> r == Fetched(None, true, None))
  {
  }

  /** After a purge, a fetch of the same session is a miss. */
  lemma PurgeThenFetch(store: map<string, Item>, sessID: string, decode: (string, seq<Byte>) -> Result<User>)
    ensures Classify(sessID, Get(store - {sessID}, sessID, None), decode) == Fetched(None, false, None)
  {
  }

  /** Writing or deleting one key changes no fetch of another key. */
  lemma OtherKeysUnaffected(store: map<string, Item>, key: string, item: Item, other: string, fault: Option<Error>)
    requires other != key
    ensures Get(store[key := item], other, fault) == Get(store, other, fault)
    ensures Get(store - {key}, other, fault) == Get(store, other, fault)
  {
  }

  class MemcacheCacher {
    /** The memcache server's contents. */
    var store: map<string, Item>

    constructor (store: map<string, Item>)
      ensures this.store == store
    {
      this.store := store;
    }

    /** The effect of `mc.Set(key, item)` whose outcome is `fault`: nothing on failure, else the write. */
    twostate predicate Set(key: string, item: Item, fault: Option<Error>)
      reads this
    {
      && (fault.Some? ==> store == old(store))
      && (fault.None? ==> store == old(store)[key := item])
    }

    /** The effect of `mc.Delete(key)` whose outcome is `fault`: nothing on failure, else the removal. */
    twostate predicate Deleted(key: string, fault: Option<Error>)
      reads this
    {
      && (fault.Some? ==> store == old(store))
      && (fault.None? ==> store == old(store) - {key})
    }

    /** `doStore`: writes the user's token under its session id. */
    method DoStore(u: User, secondsLeft: Int32, setFault: Option<Error>) returns (err: Option<Error>)
      modifies this
      ensures Set(u.sessId, Item(u.token, StoreTtl(u, secondsLeft)), setFault) && err == setFault
    {
      var ttl: Int32 := 0;
      if u.expiry.Some? {
        ttl := secondsLeft;
      }
      err := setFault;
      if setFault.None? {
        store := store[u.sessId := Item(u.token, ttl)];
      }
    }

    /** `Store`: the result of `doStore`. */
    method Store(u: User, secondsLeft: Int32, setFault: Option<Error>) returns (err: Option<Error>)
      modifies this
      ensures Set(u.sessId, Item(u.token, StoreTtl(u, secondsLeft)), setFault) && err == setFault
    {
      err := DoStore(u, secondsLeft, setFault);
    }

    /** `doInvalidate`: writes the invalid placeholder under the session id, for an hour. */
    method DoInvalidate(sessID: string, setFault: Option<Error>) returns (err: Option<Error>)
      modifies this
      ensures Set(sessID, Item(InvalidPlaceholder, InvalidateTimeout), setFault) && err == setFault
    {
      err := setFault;
      if setFault.None? {
        store := store[sessID := Item(InvalidPlaceholder, InvalidateTimeout)];
      }
    }

    /** `Invalidate`: the result of `doInvalidate`. */
    method Invalidate(sessID: string, setFault: Option<Error>) returns (err: Option<Error>)
      modifies this
      ensures Set(sessID, Item(InvalidPlaceholder, InvalidateTimeout), setFault) && err == setFault
    {
      err := DoInvalidate(sessID, setFault);
    }

    /** `doFetch`: classifies what `mc.Get` returns; the store is only read. */
    method DoFetch(sessID: string, getFault: Option<Error>, decode: (string, seq<Byte>) -> Result<User>)
      returns (r: Fetched)
      ensures r == Classify(sessID, Get(store, sessID, getFault), decode)
    {
      var got := Get(store, sessID, getFault);
      if got.Failed? {
        return Fetched(None, false, Some(got.err));
      }
      if got.Miss? {
        return Fetched(None, false, None);
      }
      if got.item.value == InvalidPlaceholder {
        return Fetched(None, true, None);
      }
      var decoded := decode(sessID, got.item.value);
      if decoded.Err? {
        return Fetched(None, false, None);
      }
      return Fetched(Some(decoded.value), true, None);
    }

    /** `Fetch`: the result of `doFetch`. */
    method Fetch(sessID: string, getFault: Option<Error>, decode: (string, seq<Byte>) -> Result<User>)
      returns (r: Fetched)
      ensures r == Classify(sessID, Get(store, sessID, getFault), decode)
    {
      r := DoFetch(sessID, getFault, decode);
    }

    /** `doPurge`: deletes the session id; the error of the delete, if any, is returned. */
    method DoPurge(sessID: string, deleteFault: Option<Error>) returns (err: Option<Error>)
      modifies this
      ensures Deleted(sessID, deleteFault) && err == deleteFault
    {
      if deleteFault.Some? {
        return deleteFault;
      }
      store := store - {sessID};
      return None;
    }

    /** `Purge`: the result of `doPurge`. */
    method Purge(sessID: string, deleteFault: Option<Error>) returns (err: Option<Error>)
      modifies this
      ensures Deleted(sessID, deleteFault) && err == deleteFault
    {
      err := DoPurge(sessID, deleteFault);
    }
  }
}
