/**
 * The keyspace executor of gocassa/executor.go: a lazily initialised holder
 * of one driver session per keyspace, which swaps its session when the
 * keyspace configuration changes, and the process-wide registry that hands
 * out one executor per keyspace.
 *
 * The configuration source, the driver's `CreateSession`, its query
 * iterator and the hash of a configuration are not part of this model: their
 * outcomes are inputs of the methods (the hash is a function the executor is
 * built with).
 */
module Executor {
  import opened Common

  /** `uint32`, the type of `ksConfig.hash()`. */
  type Hash = x: int | 0 <= x < 0x1_0000_0000

  /** Identity of a driver session (`*gocql.Session`). */
  type SessionId = nat

  /** A keyspace configuration as loaded from the configuration source. */
  datatype KsConfig = KsConfig(ks: string, hosts: seq<string>, numConns: nat)

  /** One result row of a query: column name to value. */
  type Row = map<string, string>

  const NoOpenSession: Error := Error("No open session")
  const NotImplemented: Error := Error("Execute atomically is not implemented yet")

  class Executor {
    const ks: string
    /** `ksConfig.hash`, whose definition is not part of this model. */
    const hash: KsConfig -> Hash

    var initialised: bool
    /** Whether `init` has started the configuration watcher (`go e.watchConfig()`). */
    var watching: bool
    var lastHash: Hash
    /** `cfg`: None stands for the zero `ksConfig` before the first switch. */
    var cfg: Option<KsConfig>
    /** `session`: None is a nil session. */
    var session: Option<SessionId>
    /** The sessions this executor has closed, in order. */
    var closedSessions: seq<SessionId>

    /**
     * The lifecycle invariant: the watcher runs exactly when the executor is
     * initialised, an initialised executor always holds a session, and a
     * session is only ever installed together with a configuration.
     */
    ghost predicate Valid()
      reads this
    {
      && (initialised <==> watching)
      && (initialised ==> session.Some?)
      && (session.Some? ==> cfg.Some?)
    }

    /** `&gocqlExecutor{ks: ks}`: not initialised, no configuration, no session. */
    constructor (ks: string, hash: KsConfig -> Hash)
      ensures Valid()
      ensures this.ks == ks && this.hash == hash
      ensures !initialised && !watching && lastHash == 0
      ensures cfg.None? && session.None? && closedSessions == []
    {
      this.ks := ks;
      this.hash := hash;
      initialised := false;
      watching := false;
      lastHash := 0;
      cfg := None;
      session := None;
      closedSessions := [];
    }

    /**
     * The effect of `switchConfig(newConfig)` when creating the new session
     * has outcome `created`: the current session, if any, is closed first and
     * the new configuration is installed; only a created session replaces the
     * session and the recorded hash. After a failure the closed session stays
     * installed and `lastHash` still differs from the new configuration's
     * hash, so the next reload of the same configuration switches again.
     */
    twostate predicate Switched(newConfig: KsConfig, created: Result<SessionId>)
      reads this
    {
      && closedSessions == old(closedSessions) + (if old(session).Some? then [old(session).value] else [])
      && cfg == Some(newConfig)
      && (created.Ok? ==> session == Some(created.value) && lastHash == hash(newConfig))
      && (created.Err? ==> session == old(session) && lastHash == old(lastHash))
    }

    /** `switchConfig`: returns the session-creation error, if any. */
    method SwitchConfig(newConfig: KsConfig, created: Result<SessionId>) returns (err: Option<Error>)
      modifies this
      ensures Switched(newConfig, created)
      ensures initialised == old(initialised) && watching == old(watching)
      ensures created.Ok? ==> err.None?
      ensures created.Err? ==> err == Some(created.error)
      ensures old(Valid()) ==> Valid()
    {
      if session.Some? {
        closedSessions := closedSessions + [session.value];
      }
      cfg := Some(newConfig);
      match created
      case Err(e) =>
        return Some(e);
      case Ok(s) =>
        session := Some(s);
        lastHash := hash(newConfig);
        err := None;
    }

    /**
     * The effect of `init` when loading the configuration has outcome
     * `loaded` and creating its session has outcome `created`: an initialised
     * executor and a load error change nothing; otherwise the configuration
     * is switched, and only a successful switch starts the watcher and marks
     * the executor initialised.
     */
    twostate predicate Initialised(loaded: Result<KsConfig>, created: Result<SessionId>)
      reads this
    {
      && (old(initialised) || loaded.Err? ==> unchanged(this))
      && (!old(initialised) && loaded.Ok? ==>
            && Switched(loaded.value, created)
            && (created.Ok? ==> initialised && watching)
            && (created.Err? ==> !initialised && watching == old(watching)))
    }

    /**
     * `init`, with the outcome of loading the keyspace configuration and of
     * creating its session as inputs. An initialised executor is left alone;
     * otherwise a load or switch error is returned and the executor stays
     * uninitialised, and a successful switch starts the watcher and marks it
     * initialised.
     */
    method Init(loaded: Result<KsConfig>, created: Result<SessionId>) returns (err: Option<Error>)
      modifies this
      ensures err == InitError(old(initialised), loaded, created)
      ensures Initialised(loaded, created)
      ensures old(Valid()) ==> Valid()
    {
      if initialised {
        return None;
      }
      match loaded
      case Err(e) =>
        return Some(e);
      case Ok(c) =>
        err := SwitchConfig(c, created);
        if err.Some? {
          return;
        }
        watching := true;
        initialised := true;
    }

    /**
     * `reloadSession`, with the outcome of reloading the configuration and of
     * creating a session as inputs. A load error or an unchanged hash changes
     * nothing; otherwise the configuration is switched. `retry` reports that
     * the switch failed and the method goes on to send on the watcher's retry
     * channel. That channel is unbuffered and only the watcher, which is the
     * goroutine making the send, receives from it, so the send never
     * completes: after a retry the watcher is blocked for good and
     * `reloadSession` is never called again.
     */
    method ReloadSession(loaded: Result<KsConfig>, created: Result<SessionId>) returns (retry: bool)
      modifies this
      ensures loaded.Err? ==> !retry && unchanged(this)
      ensures loaded.Ok? && hash(loaded.value) == old(lastHash) ==> !retry && unchanged(this)
      ensures loaded.Ok? && hash(loaded.value) != old(lastHash) ==>
                && Switched(loaded.value, created)
                && initialised == old(initialised) && watching == old(watching)
                && (retry <==> created.Err?)
      ensures old(Valid()) ==> Valid()
    {
      retry := false;
      match loaded
      case Err(_) =>
      case Ok(c) =>
        if hash(c) != lastHash {
          var err := SwitchConfig(c, created);
          retry := err.Some?;
        }
    }

    /**
     * `Query`, with the inputs `Init` needs, the rows the session's iterator
     * yields and the error its `Close` reports. An `init` error is returned
     * with no rows; a nil session gives "No open session"; otherwise every
     * scanned row is returned, in order, with the iterator's error. Under the
     * lifecycle invariant the nil-session guard never fires.
     */
    method Query(loaded: Result<KsConfig>, created: Result<SessionId>, scanned: seq<Row>, closeErr: Option<Error>)
      returns (results: Option<seq<Row>>, err: Option<Error>)
      modifies this
      ensures var initErr := InitError(old(initialised), loaded, created);
              && (initErr.Some? ==> results.None? && err == initErr)
              && (initErr.None? && session.None? ==> results.None? && err == Some(NoOpenSession))
              && (initErr.None? && session.Some? ==> results == Some(scanned) && err == closeErr)
      ensures Initialised(loaded, created)
      ensures old(Valid()) ==> Valid() && (InitError(old(initialised), loaded, created).None? ==> session.Some?)
    {
      err := Init(loaded, created);
      if err.Some? {
        return None, err;
      }
      if session.None? {
        return None, Some(NoOpenSession);
      }
      var rows: seq<Row> := [];
      for k := 0 to |scanned|
        invariant rows == scanned[..k]
      {
        rows := rows + [scanned[k]];
      }
      assert scanned[..|scanned|] == scanned;
      return Some(rows), closeErr;
    }

    /**
     * `Execute`: the same guards as `Query`, then the error of executing the
     * statement on the session (an input).
     */
    method Execute(loaded: Result<KsConfig>, created: Result<SessionId>, execErr: Option<Error>)
      returns (err: Option<Error>)
      modifies this
      ensures var initErr := InitError(old(initialised), loaded, created);
              && (initErr.Some? ==> err == initErr)
              && (initErr.None? && session.None? ==> err == Some(NoOpenSession))
              && (initErr.None? && session.Some? ==> err == execErr)
      ensures Initialised(loaded, created)
      ensures old(Valid()) ==> Valid() && (InitError(old(initialised), loaded, created).None? ==> session.Some?)
    {
      err := Init(loaded, created);
      if err.Some? {
        return;
      }
      if session.None? {
        return Some(NoOpenSession);
      }
      return execErr;
    }

    /** `ExecuteAtomically`: fails for every input and touches no state. */
    function ExecuteAtomically(stmts: seq<string>, params: seq<seq<string>>): (err: Option<Error>)
      ensures err.Some? && err.value.message == "Execute atomically is not implemented yet"
    {
      Some(NotImplemented)
    }
  }

  /** The error `init` reports, given whether the executor was initialised and the outcomes of its steps. */
  function InitError(initialised: bool, loaded: Result<KsConfig>, created: Result<SessionId>): (err: Option<Error>)
    ensures initialised ==> err.None?
    ensures !initialised && loaded.Err? ==> err == Some(loaded.error)
    ensures !initialised && loaded.Ok? && created.Err? ==> err == Some(created.error)
    ensures !initialised && loaded.Ok? && created.Ok? ==> err.None?
  {
    if initialised then None
    else if loaded.Err? then Some(loaded.error)
    else if created.Err? then Some(created.error)
    else None
  }

  /**
   * The registry of `gocqlConnector`: one executor per keyspace, created on
   * first request. The gocassa `Connection` wrapping each executor is not
   * part of this model.
   */
  class Registry {
    /** The hash every executor is built with. */
    const hash: KsConfig -> Hash
    /** `ksConnections`. */
    var connections: map<string, Executor>

    /** Every executor is registered under its own keyspace. */
    ghost predicate Valid()
      reads this, connections.Values
    {
      forall k :: k in connections ==> connections[k].ks == k
    }

    constructor (hash: KsConfig -> Hash)
      ensures Valid() && this.hash == hash && connections == map[]
    {
      this.hash := hash;
      connections := map[];
    }

    /**
     * `gocqlConnector(ks)`: the executor already registered for the keyspace,
     * or a new, uninitialised one that is registered under it. No other
     * keyspace's entry changes.
     */
    method Connector(ks: string) returns (e: Executor)
      requires Valid()
      modifies this
      ensures Valid()
      ensures ks in old(connections) ==> e == old(connections[ks]) && connections == old(connections)
      ensures ks !in old(connections) ==>
                && fresh(e) && e.ks == ks && e.hash == hash && e.Valid()
                && !e.initialised && !e.watching && e.lastHash == 0
                && e.cfg.None? && e.session.None? && e.closedSessions == []
                && connections == old(connections)[ks := e]
      ensures connections.Keys == old(connections.Keys) + {ks}
    {
      if ks in connections {
        return connections[ks];
      }
      e := new Executor(ks, hash);
      connections := connections[ks := e];
    }
  }

  /** Repeated requests for one keyspace yield one executor and one registry entry. */
  method ConnectorTwice(ks: string, hash: KsConfig -> Hash)
    returns (first: Executor, second: Executor, entries: nat)
    ensures first == second && first.ks == ks
    ensures entries == 1
  {
    var registry := new Registry(hash);
    first := registry.Connector(ks);
    second := registry.Connector(ks);
    entries := |registry.connections|;
  }

  /**
   * A failed switch leaves the closed session installed and the old hash
   * recorded, so a direct second call of `ReloadSession` with the same
   * configuration switches again. The watcher never makes that second call:
   * after the failure it is blocked in its retry send (see
   * `StrandedAfterFailedSwitch`).
   */
  method FailedSwitchRetries(ks: string, hash: KsConfig -> Hash, first: KsConfig, second: KsConfig,
                             s1: SessionId, s2: SessionId, failure: Error)
    returns (afterFailure: Option<SessionId>, closedAfterFailure: seq<SessionId>, retry: bool,
             afterRetry: Option<SessionId>)
    requires hash(first) != hash(second)
    ensures afterFailure == Some(s1) && closedAfterFailure == [s1] && retry
    ensures afterRetry == Some(s2)
  {
    var e := new Executor(ks, hash);
    var err := e.Init(Ok(first), Ok(s1));
    retry := e.ReloadSession(Ok(second), Err(failure));
    afterFailure, closedAfterFailure := e.session, e.closedSessions;
    var again := e.ReloadSession(Ok(second), Ok(s2));
    afterRetry := e.session;
  }

  /**
   * Lazy initialisation happens once: the first query initialises the
   * executor with its session, and a later query, whatever configuration
   * and session its own `init` would have loaded, keeps that session.
   */
  method QueryInitialisesOnce(ks: string, hash: KsConfig -> Hash, first: KsConfig, second: KsConfig,
                              s1: SessionId, s2: SessionId, rows: seq<Row>)
    returns (afterFirst: Option<SessionId>, afterSecond: Option<SessionId>, results: Option<seq<Row>>)
    ensures afterFirst == Some(s1) && afterSecond == Some(s1)
    ensures results == Some(rows)
  {
    var e := new Executor(ks, hash);
    var r1, err1 := e.Query(Ok(first), Ok(s1), [], None);
    afterFirst := e.session;
    var err2;
    results, err2 := e.Query(Ok(second), Ok(s2), rows, None);
    afterSecond := e.session;
  }

  /**
   * After a failed switch in the watcher, the only calls that remain
   * reachable are `init` (through `Query` and `Execute`), and `init` does
   * nothing on an initialised executor: the executor keeps the session it
   * has already closed, and every later query is sent to that closed
   * session. `closedErr` is the error the closed session's iterator
   * reports; the query returns no rows and that error.
   */
  method StrandedAfterFailedSwitch(ks: string, hash: KsConfig -> Hash, first: KsConfig, second: KsConfig,
                                   s1: SessionId, s2: SessionId, failure: Error, closedErr: Error)
    returns (retry: bool, stranded: Option<SessionId>, closed: seq<SessionId>,
             results: Option<seq<Row>>, queryErr: Option<Error>)
    requires hash(first) != hash(second)
    ensures retry
    ensures stranded == Some(s1) && closed == [s1] && stranded.value in closed
    ensures results == Some([]) && queryErr == Some(closedErr)
  {
    var e := new Executor(ks, hash);
    var err := e.Init(Ok(first), Ok(s1));
    retry := e.ReloadSession(Ok(second), Err(failure));
    err := e.Init(Ok(second), Ok(s2));
    results, queryErr := e.Query(Ok(second), Ok(s2), [], Some(closedErr));
    stranded, closed := e.session, e.closedSessions;
  }
}
