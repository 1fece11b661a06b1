/**
 * The in-memory `Cacher` of auth/cache_test.go: stored users and invalidated
 * sessions in two maps, and a switch that makes every operation fail.
 */
module AuthTestCache {
  import opened Common
  import opened AuthCache

  const SimulatedFailure: Error := Error("Simulated failure")

  class TestCache {
    var users: map<string, User>
    var invalidated: map<string, bool>
    var failure: bool

    /** `newTestCache`: both maps empty, no failure. */
    constructor ()
      ensures users == map[] && invalidated == map[] && !failure
    {
      users := map[];
      invalidated := map[];
      failure := false;
    }

    /** Go's `c.invalidated[sessID]`: false for a key that is not present. */
    predicate IsInvalidated(sessID: string)
      reads this
    {
      sessID in invalidated && invalidated[sessID]
    }

    /** `Store`: fails with both maps untouched, or maps the user's session id to the user. */
    method Store(u: User) returns (err: Option<Error>)
      modifies this
      ensures failure == old(failure) && invalidated == old(invalidated)
      ensures failure ==> err == Some(SimulatedFailure) && users == old(users)
      ensures !failure ==> err.None? && users == old(users)[u.sessId := u]
    {
      if failure {
        return Some(SimulatedFailure);
      }
      users := users[u.sessId := u];
      return None;
    }

    /** `Invalidate`: fails with both maps untouched, or marks the session invalidated and forgets its user. */
    method Invalidate(sessID: string) returns (err: Option<Error>)
      modifies this
      ensures failure == old(failure)
      ensures failure ==> err == Some(SimulatedFailure) && users == old(users) && invalidated == old(invalidated)
      ensures !failure ==>
                && err.None?
                && invalidated == old(invalidated)[sessID := true]
                && users == old(users) - {sessID}
    {
      if failure {
        return Some(SimulatedFailure);
      }
      invalidated := invalidated[sessID := true];
      if sessID in users {
        users := users - {sessID};
      }
      return None;
    }

    /**
     * `Fetch`: a failure first; then an invalidated session is a hit without a
     * user, whatever is stored for it; then a stored user is a hit with that
     * user; anything else is a miss.
     */
    method Fetch(sessID: string) returns (r: Fetched)
      ensures failure ==> r == Fetched(None, false, Some(SimulatedFailure))
      ensures !failure && IsInvalidated(sessID) ==> r == Fetched(None, true, None)
      ensures !failure && !IsInvalidated(sessID) && sessID in users ==> r == Fetched(Some(users[sessID]), true, None)
      ensures !failure && !IsInvalidated(sessID) && sessID !in users ==> r == Fetched(None, false, None)
    {
      if failure {
        return Fetched(None, false, Some(SimulatedFailure));
      }
      if sessID in invalidated && invalidated[sessID] {
        return Fetched(None, true, None);
      }
      if sessID in users {
        return Fetched(Some(users[sessID]), true, None);
      }
      return Fetched(None, false, None);
    }

    /** `Purge`: fails with both maps untouched, or removes the session from both maps, present or not. */
    method Purge(sessID: string) returns (err: Option<Error>)
      modifies this
      ensures failure == old(failure)
      ensures failure ==> err == Some(SimulatedFailure) && users == old(users) && invalidated == old(invalidated)
      ensures !failure ==>
                && err.None?
                && users == old(users) - {sessID}
                && invalidated == old(invalidated) - {sessID}
    {
      if failure {
        return Some(SimulatedFailure);
      }
      if sessID in users {
        users := users - {sessID};
      }
      if sessID in invalidated {
        invalidated := invalidated - {sessID};
      }
      return None;
    }
  }

  /**
   * Invalidate, then store a user for the same session, then fetch: the
   * in-memory cache still reports the session as invalidated, while the
   * memcache cacher, whose store overwrote the placeholder, returns the user.
   */
  method StoreAfterInvalidate(u: User, decode: (string, seq<Byte>) -> Result<User>)
    returns (reference: Fetched, memcache: Fetched)
    requires decode(u.sessId, u.token).Ok? && u.token != InvalidPlaceholder
    ensures reference == Fetched(None, true, None)
    ensures memcache == Fetched(Some(decode(u.sessId, u.token).value), true, None)
  {
    var t := new TestCache();
    var e1 := t.Invalidate(u.sessId);
    var e2 := t.Store(u);
    reference := t.Fetch(u.sessId);

    var m := new MemcacheCacher(map[]);
    var e3 := m.Invalidate(u.sessId, None);
    var e4 := m.Store(u, 0, None);
    memcache := m.Fetch(u.sessId, None, decode);
  }

  /** Purge after a store and an invalidation: the next fetch is a miss, and purging again succeeds. */
  method PurgeForgets(u: User) returns (fetched: Fetched, again: Option<Error>)
    ensures fetched == Fetched(None, false, None)
    ensures again.None?
  {
    var t := new TestCache();
    var e1 := t.Store(u);
    var e2 := t.Invalidate(u.sessId);
    var e3 := t.Purge(u.sessId);
    fetched := t.Fetch(u.sessId);
    again := t.Purge(u.sessId);
  }
}
