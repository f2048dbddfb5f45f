/**
  Admission control (connectionmanagement/connection_manager.go): a map from
  connection id to the registered connection, a counter, a cap, an idempotent
  close and eviction of the oldest connection once it is older than 10 s.
  The clock and the UUID generator are parameters: `now` and a fresh id.
*/
module ConnectionManagement {
  import opened Types

  /** Ten seconds, in nanoseconds. */
  const GracePeriod: int := 10_000_000_000

  /**
    The copy of a connection wrapper that the map holds. The source stores the
    wrapper by value, so closing through a handler's pointer never reaches it.
  */
  datatype StoredConnection = StoredConnection(id: ConnId, created: Time)

  /** The wrapper handed to the protocol handler; connClosed is its shared closed flag. */
  class TcpConnection {
    const id: ConnId
    const created: Time
    var connClosed: bool

    /** createNewTcpConnection, with the generated id and the current time given. */
    constructor (id: ConnId, now: Time)
      ensures this.id == id && created == now && !connClosed
    {
      this.id := id;
      created := now;
      connClosed := false;
    }

    /** The shared closed flag, as every holder of this wrapper sees it. */
    function Closed(): (closed: bool)
      reads this
      ensures closed <==> connClosed
    {
      connClosed
    }

    function Stored(): StoredConnection
    {
      StoredConnection(id, created)
    }
  }

  datatype AddResult =
    | Added(connection: TcpConnection)
    | TooManyConnections
    /** The cap is 0 or less: the source indexes an empty key slice. */
    | Panicked

  /** id holds a connection with the earliest creation time in m. */
  ghost predicate IsOldest(m: map<ConnId, StoredConnection>, id: ConnId)
  {
    id in m && forall other | other in m :: m[id].created <= m[other].created
  }

  /** Some connection in m was created more than the grace period before now. */
  ghost predicate HasStale(m: map<ConnId, StoredConnection>, now: Time)
  {
    exists id | id in m :: m[id].created < now - GracePeriod
  }

  class TcpConnectionManager {
    const maxConnections: int
    var numCurrentConnections: int
    var connections: map<ConnId, StoredConnection>

    /** The counter is the size of the map, and each entry is filed under its own id. */
    ghost predicate Valid()
      reads this
    {
      && numCurrentConnections == |connections|
      && forall id | id in connections :: connections[id].id == id
    }

    /** NewTcpConnectionManager. */
    constructor (maxConnections: int)
      ensures Valid()
      ensures this.maxConnections == maxConnections && connections == map[]
    {
      this.maxConnections := maxConnections;
      numCurrentConnections := 0;
      connections := map[];
    }

    /**
      Below the cap the new connection is registered. At the cap the oldest
      connection is evicted first if it is older than the grace period, and
      otherwise the call fails and nothing changes.
    */
    method AddConnection(newId: ConnId, now: Time) returns (r: AddResult)
      requires Valid()
      requires newId !in connections
      modifies this
      ensures Valid()
      ensures old(numCurrentConnections) <= maxConnections ==> numCurrentConnections <= maxConnections
      ensures r.Added? ==>
        && fresh(r.connection)
        && r.connection.id == newId && r.connection.created == now && !r.connection.connClosed
      ensures old(numCurrentConnections) < maxConnections ==>
        && r.Added?
        && connections == old(connections)[newId := StoredConnection(newId, now)]
      ensures old(numCurrentConnections) >= maxConnections && old(connections) != map[] ==>
        && (r.Added? <==> HasStale(old(connections), now))
        && (r.Added? ==> exists evicted: ConnId | IsOldest(old(connections), evicted) ::
              connections == (old(connections) - {evicted})[newId := StoredConnection(newId, now)])
        && (!r.Added? ==> r.TooManyConnections? && connections == old(connections))
      ensures old(numCurrentConnections) >= maxConnections && old(connections) == map[] ==>
        r.Panicked? && connections == old(connections)
    {
      if numCurrentConnections >= maxConnections {
        if connections == map[] {
          return Panicked;
        }
        var evicted := CloseOldestConnection(now);
        if !evicted {
          return TooManyConnections;
        }
      }
      var newConnection := new TcpConnection(newId, now);
      connections := connections[newConnection.id := newConnection.Stored()];
      numCurrentConnections := numCurrentConnections + 1;
      r := Added(newConnection);
    }

    /**
      Removes a registered connection once: sets the wrapper's closed flag,
      deletes its entry and decrements the counter. An id that is no longer
      registered (already closed, or evicted) is left as it is.
    */
    method CloseConnection(connectionWrapper: TcpConnection)
      requires Valid()
      modifies this, connectionWrapper
      ensures Valid()
      ensures old(connectionWrapper.id in connections) ==>
        && connectionWrapper.connClosed
        && connections == old(connections) - {connectionWrapper.id}
      ensures old(connectionWrapper.id !in connections) ==>
        && connectionWrapper.connClosed == old(connectionWrapper.connClosed)
        && connections == old(connections)
    {
      var connectionId := connectionWrapper.id;
      if connectionId !in connections {
        return;
      }
      connectionWrapper.connClosed := true;
      connections := connections - {connectionId};
      numCurrentConnections := numCurrentConnections - 1;
    }

    /**
      Finds a connection with the earliest creation time and removes it when it
      was created more than the grace period before now. No closed flag is set.
    */
    method CloseOldestConnection(now: Time) returns (closed: bool)
      requires Valid()
      requires connections != map[]
      modifies this
      ensures Valid()
      ensures closed <==> HasStale(old(connections), now)
      ensures closed ==> exists evicted: ConnId | IsOldest(old(connections), evicted) ::
        connections == old(connections) - {evicted}
      ensures !closed ==> connections == old(connections)
    {
      // Collect the keys, in an order the model leaves open (Go's map order is random).
      var connectionIdKeys: seq<ConnId> := [];
      var unvisited := connections.Keys;
      while unvisited != {}
        invariant unvisited <= connections.Keys
        invariant forall i | 0 <= i < |connectionIdKeys| :: connectionIdKeys[i] in connections
        invariant forall id | id in connections :: id in unvisited || id in connectionIdKeys
        decreases unvisited
      {
        var key :| key in unvisited;
        connectionIdKeys := connectionIdKeys + [key];
        unvisited := unvisited - {key};
      }
      assert |connectionIdKeys| > 0 by {
        var some :| some in connections;
        assert some in connectionIdKeys;
      }
      // The source sorts newest first and takes the last key; with a stable sort
      // that is the last key, in collection order, of those created earliest.
      var oldest := connectionIdKeys[0];
      var i := 1;
      while i < |connectionIdKeys|
        invariant 1 <= i <= |connectionIdKeys|
        invariant oldest in connections
        invariant forall j | 0 <= j < i :: connections[oldest].created <= connections[connectionIdKeys[j]].created
      {
        if connections[connectionIdKeys[i]].created <= connections[oldest].created {
          oldest := connectionIdKeys[i];
        }
        i := i + 1;
      }
      assert IsOldest(connections, oldest) by {
        forall other | other in connections
          ensures connections[oldest].created <= connections[other].created
        {
          var j :| 0 <= j < |connectionIdKeys| && connectionIdKeys[j] == other;
        }
      }

      var oldestConnectionTime := connections[oldest].created;
      var oldestTcpConnectionWrapper := connections[oldest];
      var tenSecondsAgo := now - GracePeriod;
      if oldestConnectionTime < tenSecondsAgo {
        connections := connections - {oldestTcpConnectionWrapper.id};
        numCurrentConnections := numCurrentConnections - 1;
        return true;
      }
      return false;
    }
  }

  /**
    With a cap of 2 and two connections registered, a third is admitted exactly
    when the older of the two was created more than 10 s before it arrives.
  */
  method EvictionBoundary(t0: Time, t1: Time, now: Time) returns (third: AddResult)
    requires t0 <= t1 <= now
    ensures third.Added? <==> t0 < now - GracePeriod
    ensures !third.Added? ==> third.TooManyConnections?
  {
    var manager := new TcpConnectionManager(2);
    var first := manager.AddConnection(1, t0);
    var second := manager.AddConnection(2, t1);
    third := manager.AddConnection(3, now);
  }

  /**
    Eviction does not set the evicted wrapper's closed flag, and closing that
    wrapper afterwards finds no entry, so the flag stays false.
  */
  method EvictedConnectionNeverClosed(created: Time, now: Time) returns (closedFlag: bool)
    requires created < now - GracePeriod
    ensures !closedFlag
  {
    var manager := new TcpConnectionManager(1);
    var first := manager.AddConnection(1, created);
    var second := manager.AddConnection(2, now);
    assert second.Added?;
    manager.CloseConnection(first.connection);
    closedFlag := first.connection.Closed();
  }
}
