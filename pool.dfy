/**
 * The per-host connection-slot pool of gocassa/pool.go.
 *
 * Each host of the configuration owns `numConns` slots. A slot is either an
 * established connection waiting in the host's established channel, a nil
 * token waiting in the host's unestablished channel, or a connection that is
 * checked out. The host selector's pick, the outcome of dialling and the
 * driver's `Closed()` flags are inputs of `Checkout`; the connections `Close`
 * shuts down are its output.
 */
module Pool {
  import opened Common

  type Host = string

  /** Identity of a driver connection (`*gocql.Conn`). */
  type ConnId = nat

  /** A value carried by a host channel: a nil pointer or a driver connection. */
  datatype ConnRef = Nil | Ref(id: ConnId)

  /** `gocqlConnCheckout`: the connection vended (nil when none could be had) and the picked host. */
  datatype ConnCheckout = ConnCheckout(conn: ConnRef, host: Host)

  /** What `checkin` reports to the host selector through `hpResp.Mark(err)`. */
  datatype Mark = Mark(host: Host, err: Option<Error>)

  /** What the priority select of `checkout` receives, and what it leaves in the host's two channels. */
  datatype Selected = Selected(conn: ConnRef, established: seq<ConnId>, tokens: nat)

  /**
   * The priority select of `checkout`: an established connection is always
   * preferred; only when none is waiting is a nil token taken. Exactly one
   * slot leaves the two channels.
   */
  function Select(est: seq<ConnId>, tokens: nat): (s: Selected)
    requires est != [] || tokens > 0
    ensures |s.established| + s.tokens + 1 == |est| + tokens
    ensures est != [] <==> s.conn.Ref?
    ensures est != [] ==> [s.conn.id] + s.established == est && s.tokens == tokens
    ensures est == [] ==> s.established == [] && s.tokens + 1 == tokens
  {
    if est != [] then Selected(Ref(est[0]), est[1..], tokens)
    else Selected(Nil, est, tokens - 1)
  }

  /** The outcome of `checkout` for a host that had a slot to offer. */
  datatype Taken = Taken(conn: ConnRef, established: seq<ConnId>, tokens: nat, dialled: bool)

  /**
   * After the select, `checkout` keeps a waiting connection that is still
   * open; a nil token or a closed connection makes it dial the host instead,
   * and a failed dial sends a nil token back to the unestablished channel.
   * No slot is lost or gained: the vended connection (if any) and what is
   * left in the two channels add up to the slots offered before.
   */
  function Take(est: seq<ConnId>, tokens: nat, closed: set<ConnId>, dial: Option<ConnId>): (t: Taken)
    requires est != [] || tokens > 0
    ensures |t.established| + t.tokens + (if t.conn.Ref? then 1 else 0) == |est| + tokens
    ensures est != [] ==> t.established == est[1..]
    ensures est == [] ==> t.established == []
    ensures !t.dialled <==> est != [] && est[0] !in closed
    ensures !t.dialled ==> t.conn == Ref(est[0]) && t.tokens == tokens
    ensures t.dialled ==> t.conn == (if dial.Some? then Ref(dial.value) else Nil)
  {
    var s := Select(est, tokens);
    if s.conn.Ref? && s.conn.id !in closed then Taken(s.conn, s.established, s.tokens, false)
    else if dial.Some? then Taken(Ref(dial.value), s.established, s.tokens, true)
    else Taken(Nil, s.established, s.tokens + 1, true)
  }

  /**
   * A reused connection that is checked back in rejoins its host's
   * established channel at the back: the waiting connections are the same
   * ones, none lost and none duplicated.
   */
  lemma ReuseThenCheckin(est: seq<ConnId>, tokens: nat, closed: set<ConnId>, dial: Option<ConnId>)
    requires est != [] || tokens > 0
    requires !Take(est, tokens, closed, dial).dialled
    ensures var t := Take(est, tokens, closed, dial);
            && t.established + [t.conn.id] == est[1..] + [est[0]]
            && multiset(t.established + [t.conn.id]) == multiset(est)
            && t.tokens == tokens
  {
  }

  /** Every host of `hosts`, and no other, has its `n` slots accounted for. */
  ghost predicate Conserved(hosts: seq<Host>, n: nat, est: map<Host, seq<ConnId>>,
                            unest: map<Host, nat>, out: map<Host, nat>)
  {
    && est.Keys == (set h | h in hosts)
    && unest.Keys == est.Keys
    && out.Keys == est.Keys
    && (forall h :: h in est ==> |est[h]| + unest[h] + out[h] == n)
  }

  /** Replacing one host's slots by an arrangement of the same size conserves the pool. */
  lemma UpdateHost(hosts: seq<Host>, n: nat, est: map<Host, seq<ConnId>>,
                   unest: map<Host, nat>, out: map<Host, nat>,
                   h: Host, e: seq<ConnId>, u: nat, o: nat)
    requires Conserved(hosts, n, est, unest, out) && h in est
    requires |e| + u + o == n
    ensures Conserved(hosts, n, est[h := e], unest[h := u], out[h := o])
  {
  }

  class ConnectionPool {
    /** `Cfg.hosts`: fixed for the lifetime of the pool. */
    const hosts: seq<Host>
    /** `Cfg.cc.NumConns`: the capacity of each host channel. */
    const numConns: nat

    /** Every connection dialled since `init` or the last `Close`. */
    var activeConns: seq<ConnId>
    /** `hostConnsEstablished`: the connections waiting in each host's channel, oldest first. */
    var established: map<Host, seq<ConnId>>
    /**
     * `hostConnsUnestablished`: only nil is ever sent on these channels, so
     * each is described by the number of nil tokens it holds.
     */
    var unestablished: map<Host, nat>
    /** The outcomes reported to the host selector, in order. */
    var marks: seq<Mark>

    /** The number of connections currently checked out, per host. */
    ghost var checkedOut: map<Host, nat>

    /**
     * Slot conservation: every host of the configuration, and no other, has
     * both channels, and its waiting connections, its nil tokens and its
     * checked-out connections together make up exactly `numConns` slots.
     */
    ghost predicate Valid()
      reads this
    {
      Conserved(hosts, numConns, established, unestablished, checkedOut)
    }

    /** The struct literal `&gocqlConnectionPool{Cfg: ...}`, before `init` has run. */
    constructor (hosts: seq<Host>, numConns: nat)
      ensures this.hosts == hosts && this.numConns == numConns
      ensures activeConns == [] && established == map[] && unestablished == map[] && marks == []
    {
      this.hosts := hosts;
      this.numConns := numConns;
      activeConns := [];
      established := map[];
      unestablished := map[];
      marks := [];
      checkedOut := map[];
    }

    /**
     * `init`: no active connections, and for every host an empty established
     * channel and an unestablished channel filled to capacity with nil tokens.
     */
    method Init()
      modifies this
      ensures Valid()
      ensures activeConns == [] && marks == []
      ensures forall h :: h in hosts ==>
                established[h] == [] && unestablished[h] == numConns && checkedOut[h] == 0
    {
      marks := [];
      activeConns := [];
      established := map[];
      unestablished := map[];
      checkedOut := map[];
      for k := 0 to |hosts|
        invariant activeConns == [] && marks == []
        invariant forall h :: h in established <==> h in hosts[..k]
        invariant forall h :: h in unestablished <==> h in hosts[..k]
        invariant forall h :: h in checkedOut <==> h in hosts[..k]
        invariant forall h :: h in established ==>
                    established[h] == [] && unestablished[h] == numConns && checkedOut[h] == 0
      {
        var host := hosts[k];
        established := established[host := []];
        var tokens := 0;
        for i := 0 to numConns
          invariant tokens == i
        {
          tokens := tokens + 1;
        }
        unestablished := unestablished[host := tokens];
        checkedOut := checkedOut[host := 0];
        assert hosts[..k + 1] == hosts[..k] + [host];
      }
      assert hosts[..|hosts|] == hosts;
    }

    /** The picked host has an established connection waiting. */
    predicate HasEstablished(h: Host)
      reads this
    {
      h in established && established[h] != []
    }

    /** The picked host has a nil token waiting. */
    predicate HasToken(h: Host)
      reads this
    {
      h in unestablished && unestablished[h] > 0
    }

    /**
     * `checkout`, with the selector's pick, the set of connections whose
     * `Closed()` reports true, and the outcome of dialling the picked host
     * (None for a failed `gocql.Connect`) as inputs.
     *
     * When the host has neither an established connection nor a token (a host
     * outside the configuration has no channels at all), the wait times out
     * and the result carries a nil connection, with nothing changed. Otherwise
     * the priority select takes a slot (see `Select`); a token or a closed
     * connection is replaced by a fresh dial: a successful dial is recorded in
     * `activeConns`, a failed one gives the slot back as a nil token.
     */
    method Checkout(pick: Host, closed: set<ConnId>, dial: Option<ConnId>) returns (c: ConnCheckout)
      requires Valid()
      modifies this
      ensures Valid()
      ensures c.host == pick && marks == old(marks)
      ensures !old(HasEstablished(pick)) && !old(HasToken(pick)) ==> c.conn == Nil && unchanged(this)
      ensures old(HasEstablished(pick)) || old(HasToken(pick)) ==>
                var t := Take(old(established[pick]), old(unestablished[pick]), closed, dial);
                && c.conn == t.conn
                && established == old(established)[pick := t.established]
                && unestablished == old(unestablished)[pick := t.tokens]
                && activeConns == old(activeConns) + (if t.dialled && dial.Some? then [dial.value] else [])
                && checkedOut == old(checkedOut)[pick := old(checkedOut[pick]) + if t.conn.Ref? then 1 else 0]
    {
      if !HasEstablished(pick) && !HasToken(pick) {
        return ConnCheckout(Nil, pick);
      }
      ghost var est, unest, out := established, unestablished, checkedOut;
      c := TakeSlot(pick, closed, dial);
      var t := Take(est[pick], unest[pick], closed, dial);
      UpdateHost(hosts, numConns, est, unest, out, pick, t.established, t.tokens, checkedOut[pick]);
    }

    /** The part of `checkout` after a slot has been received from one of the host's channels. */
    method TakeSlot(pick: Host, closed: set<ConnId>, dial: Option<ConnId>) returns (c: ConnCheckout)
      requires pick in established && pick in unestablished && pick in checkedOut
      requires HasEstablished(pick) || HasToken(pick)
      modifies this
      ensures c.host == pick && marks == old(marks)
      ensures var t := Take(old(established[pick]), old(unestablished[pick]), closed, dial);
              && c.conn == t.conn
              && established == old(established)[pick := t.established]
              && unestablished == old(unestablished)[pick := t.tokens]
              && activeConns == old(activeConns) + (if t.dialled && dial.Some? then [dial.value] else [])
              && checkedOut == old(checkedOut)[pick := old(checkedOut[pick]) + if t.conn.Ref? then 1 else 0]
    {
      var t := Take(established[pick], unestablished[pick], closed, dial);
      var conn := t.conn;
      if t.dialled {
        conn := Connect(dial);
      }
      ghost var out := checkedOut[pick] + if conn.Ref? then 1 else 0;
      established, unestablished, checkedOut := established[pick := t.established], unestablished[pick := t.tokens], checkedOut[pick := out];
      c := ConnCheckout(conn, pick);
    }

    /**
     * `connect`: a successful dial appends exactly the new connection to
     * `activeConns`; a failed one changes nothing and yields nil.
     */
    method Connect(dial: Option<ConnId>) returns (conn: ConnRef)
      modifies this`activeConns
      ensures dial.None? ==> conn == Nil && activeConns == old(activeConns)
      ensures dial.Some? ==> conn == Ref(dial.value) && activeConns == old(activeConns) + [dial.value]
    {
      match dial
      case None =>
        conn := Nil;
      case Some(id) =>
        activeConns := activeConns + [id];
        conn := Ref(id);
    }

    /**
     * `checkin`: the outcome is always reported for the pick; a live
     * connection goes back to the established channel of its host, which
     * conservation guarantees has room for it (the send never blocks).
     */
    method Checkin(c: ConnCheckout, err: Option<Error>)
      requires Valid()
      requires c.conn.Ref? ==> c.host in checkedOut && checkedOut[c.host] > 0
      modifies this
      ensures Valid()
      ensures marks == old(marks) + [Mark(c.host, err)]
      ensures c.conn.Nil? ==> established == old(established) && checkedOut == old(checkedOut)
      ensures c.conn.Ref? ==>
                && established == old(established)[c.host := old(established[c.host]) + [c.conn.id]]
                && |established[c.host]| <= numConns
                && checkedOut == old(checkedOut)[c.host := old(checkedOut[c.host]) - 1]
      ensures unestablished == old(unestablished) && activeConns == old(activeConns)
    {
      marks := marks + [Mark(c.host, err)];
      if c.conn.Ref? {
        assert c.host in checkedOut.Keys;
        established := established[c.host := established[c.host] + [c.conn.id]];
        checkedOut := checkedOut[c.host := checkedOut[c.host] - 1];
      }
    }

    /** `Pick`: the driver never gets a connection from here; `Checkout` does the choosing. */
    function Pick(): (conn: ConnRef)
      ensures conn == Nil
    {
      Nil
    }

    /** `Size`: the number of connections dialled since `init` or the last `Close`. */
    function Size(): (n: nat)
      reads this
      ensures n == |activeConns|
    {
      |activeConns|
    }

    /**
     * `Close`: closes every tracked connection, in the order they were dialled,
     * and forgets them; the host queues are left as they are.
     */
    method Close() returns (closedConns: seq<ConnId>)
      modifies this`activeConns
      ensures closedConns == old(activeConns)
      ensures activeConns == []
    {
      closedConns := [];
      for k := 0 to |activeConns|
        invariant closedConns == activeConns[..k]
      {
        closedConns := closedConns + [activeConns[k]];
      }
      assert activeConns[..|activeConns|] == activeConns;
      activeConns := [];
    }
  }

  /**
   * Connection reuse on a pool of one host with two slots: the first checkout
   * dials, the connection is checked back in, and the next checkout returns
   * the same host and the same connection without dialling again.
   */
  method ConnectionReuse(host: Host, id: ConnId, laterDial: Option<ConnId>)
    returns (first: ConnCheckout, second: ConnCheckout, size: nat)
    ensures first == ConnCheckout(Ref(id), host)
    ensures second == first
    ensures size == 1
  {
    var pool := new ConnectionPool([host], 2);
    pool.Init();
    first := pool.Checkout(host, {}, Some(id));
    pool.Checkin(first, None);
    second := pool.Checkout(host, {}, laterDial);
    size := pool.Size();
  }

  /**
   * Graceful exhaustion: with one slot per host and that slot checked out, a
   * second checkout of the same host times out with a nil connection.
   */
  method Exhaustion(host: Host, id: ConnId, laterDial: Option<ConnId>)
    returns (first: ConnCheckout, second: ConnCheckout)
    ensures first == ConnCheckout(Ref(id), host)
    ensures second == ConnCheckout(Nil, host)
  {
    var pool := new ConnectionPool([host], 1);
    pool.Init();
    first := pool.Checkout(host, {}, Some(id));
    second := pool.Checkout(host, {}, laterDial);
  }

  /**
   * A failed dial leaks no slot: after it, the host again offers a token and
   * the next checkout dials afresh.
   */
  method DialFailureKeepsSlot(host: Host, id: ConnId)
    returns (failed: ConnCheckout, retried: ConnCheckout, size: nat)
    ensures failed == ConnCheckout(Nil, host)
    ensures retried == ConnCheckout(Ref(id), host)
    ensures size == 1
  {
    var pool := new ConnectionPool([host], 1);
    pool.Init();
    failed := pool.Checkout(host, {}, None);
    retried := pool.Checkout(host, {}, Some(id));
    size := pool.Size();
  }
}
