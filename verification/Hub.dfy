/** The hub that routes messages to agent connections: a registry of its own and a lease table shared by all instances. */
module Hub {
  import opened Protocol

  /** A connection; its id is generated and never used twice. */
  datatype Conn = Conn(id: string, agentId: string, userId: string, epoch: int)

  datatype Lease = Lease(userId: string, instanceId: string, connectionId: string, epoch: int)

  function LeaseOf(c: Conn, instanceId: string): Lease {
    Lease(c.userId, instanceId, c.id, c.epoch)
  }

  /** `connOwnsLease`, on the lease that was read. */
  predicate OwnsLease(c: Conn, instanceId: string, lease: Option<Lease>) {
    lease.Some? && lease.value.instanceId == instanceId && lease.value.connectionId == c.id && lease.value.epoch == c.epoch
  }

  /** `dispatchCommandLocal` up to the send: the connection that may take the message. */
  function LocalTarget(agents: map<string, Conn>, agentId: string, userId: string, connectionId: string, epoch: int)
    : (r: Option<Conn>)
    ensures r.Some? ==> agentId in agents && r.value == agents[agentId] && r.value.userId == userId
  {
    if agentId !in agents then None
    else
      var c := agents[agentId];
      if c.userId != userId then None
      else if connectionId != "" && c.id != connectionId then None
      else if epoch > 0 && c.epoch != epoch then None
      else Some(c)
  }

  /** `disconnectAgentLocal`: the registry afterwards, and the connection that was taken out. */
  function Disconnected(agents: map<string, Conn>, agentId: string, maxEpoch: int): map<string, Conn> {
    if agentId in agents && maxEpoch > 0 && agents[agentId].epoch > maxEpoch then agents else agents - {agentId}
  }

  function UserDisconnected(agents: map<string, Conn>, userId: string): map<string, Conn> {
    map a | a in agents && agents[a].userId != userId :: agents[a]
  }

  datatype Status = Delivered | Delegated | Unavailable | QueueFull

  /** What a dispatch decides to do with its message. */
  datatype Route = Give(connectionId: string, epoch: int) | Publish(connectionId: string, epoch: int) | Drop

  /** The routing decision of `dispatchEnvelope` from what it reads: the local connection, the lease for the ownership
      check, and the lease for the route. */
  function RouteOf(instanceId: string, userId: string, local: Option<Conn>, first: Option<Lease>, second: Option<Lease>): Route {
    if local.Some? && local.value.userId != userId then Drop
    else if local.Some? && OwnsLease(local.value, instanceId, first) then Give(local.value.id, local.value.epoch)
    else if second.None? || second.value.userId != userId then Drop
    else if second.value.instanceId == instanceId then Give(second.value.connectionId, second.value.epoch)
    else Publish(second.value.connectionId, second.value.epoch)
  }

  /** An open connection with its bounded send queue. */
  class AgentConn {
    const conn: Conn
    const capacity: nat
    var send: seq<int>

    constructor (conn: Conn, capacity: nat)
      ensures this.conn == conn && this.capacity == capacity && send == []
    {
      this.conn, this.capacity, send := conn, capacity, [];
    }

    method TrySend(data: int) returns (ok: bool)
      modifies this`send
      ensures ok <==> |old(send)| < capacity
      ensures send == if ok then old(send) + [data] else old(send)
    {
      ok := |send| < capacity;
      if ok {
        send := send + [data];
      }
    }
  }

  /** The table of leases that all instances see. */
  class LeaseTable {
    var leases: map<string, Lease>

    constructor ()
      ensures leases == map[]
    {
      leases := map[];
    }
  }

  class Instance {
    const id: string
    const shared: LeaseTable
    var agents: map<string, AgentConn>

    /** The registered connections as values. */
    ghost function Registry(): map<string, Conn>
      reads this
    {
      map a | a in agents :: agents[a].conn
    }

    constructor (id: string, shared: LeaseTable)
      ensures this.id == id && this.shared == shared && agents == map[]
    {
      this.id, this.shared, agents := id, shared, map[];
    }

    method TouchAgent(c: AgentConn)
      modifies shared
      ensures shared.leases == old(shared.leases)[c.conn.agentId := LeaseOf(c.conn, id)]
    {
      shared.leases := shared.leases[c.conn.agentId := LeaseOf(c.conn, id)];
    }

    /** The new connection replaces the one that is registered, if any. */
    method AddAgent(c: AgentConn) returns (previous: Option<AgentConn>)
      modifies this`agents, shared
      ensures previous == if c.conn.agentId in old(agents) then Some(old(agents)[c.conn.agentId]) else None
      ensures agents == old(agents)[c.conn.agentId := c]
      ensures shared.leases == old(shared.leases)[c.conn.agentId := LeaseOf(c.conn, id)]
    {
      previous := if c.conn.agentId in agents then Some(agents[c.conn.agentId]) else None;
      agents := agents[c.conn.agentId := c];
      TouchAgent(c);
    }

    /** The removal of a connection that was replaced changes nothing, neither registration nor lease. */
    method RemoveAgentConn(c: AgentConn)
      modifies this`agents, shared
      ensures if c.conn.agentId in old(agents) && old(agents)[c.conn.agentId] == c
        then agents == old(agents) - {c.conn.agentId}
          && shared.leases == (if OwnsLease(c.conn, id, Lookup(old(shared.leases), c.conn.agentId))
            then old(shared.leases) - {c.conn.agentId} else old(shared.leases))
        else agents == old(agents) && shared.leases == old(shared.leases)
    {
      var a := c.conn.agentId;
      var removed := false;
      if a in agents && agents[a] == c {
        agents := agents - {a};
        removed := true;
      }
      if removed {
        RemoveLeaseIfOwned(c);
      }
    }

    method RemoveLeaseIfOwned(c: AgentConn)
      modifies shared
      ensures shared.leases == if OwnsLease(c.conn, id, Lookup(old(shared.leases), c.conn.agentId))
        then old(shared.leases) - {c.conn.agentId} else old(shared.leases)
    {
      var a := c.conn.agentId;
      if a !in shared.leases {
        return;
      }
      var lease := shared.leases[a];
      if lease.instanceId == id && lease.connectionId == c.conn.id && lease.epoch == c.conn.epoch {
        shared.leases := shared.leases - {a};
      }
    }

    /** Fencing by epoch: connections of a later epoch stay. */
    method DisconnectAgentLocal(agentId: string, maxEpoch: int)
      requires forall a :: a in agents ==> agents[a].conn.agentId == a
      modifies this`agents, shared
      ensures Registry() == Disconnected(old(Registry()), agentId, maxEpoch)
      ensures forall a :: a in agents ==> a in old(agents) && agents[a] == old(agents)[a]
      ensures shared.leases ==
        if maxEpoch == 0 then old(shared.leases) - {agentId}
        else if maxEpoch > 0 && agentId in old(agents) && agentId !in agents
          && OwnsLease(old(agents)[agentId].conn, id, Lookup(old(shared.leases), agentId))
        then old(shared.leases) - {agentId}
        else old(shared.leases)
    {
      var c := if agentId in agents then Some(agents[agentId]) else None;
      if c.Some? && maxEpoch > 0 && c.value.conn.epoch > maxEpoch {
        c := None;
      } else {
        agents := agents - {agentId};
      }
      if maxEpoch > 0 && c.Some? {
        RemoveLeaseIfOwned(c.value);
      } else if maxEpoch == 0 {
        shared.leases := shared.leases - {agentId};
      }
    }

    /** All connections of one user go, with the leases of their agents; the others stay. */
    method DisconnectUserAgentsLocal(userId: string)
      modifies this`agents, shared
      ensures agents == (map a | a in old(agents) && old(agents)[a].conn.userId != userId :: old(agents)[a])
      ensures shared.leases == old(shared.leases) - (set a | a in old(agents) && old(agents)[a].conn.userId == userId)
    {
      var pending := agents.Keys;
      var gone: set<string> := {};
      while pending != {}
        invariant pending + gone <= old(agents).Keys && shared.leases == old(shared.leases)
        invariant forall a :: a in gone <==> a in old(agents) && a !in pending && old(agents)[a].conn.userId == userId
        invariant agents == old(agents) - gone
        decreases pending
      {
        var a :| a in pending;
        pending := pending - {a};
        if agents[a].conn.userId == userId {
          gone := gone + {a};
          agents := agents - {a};
        }
      }
      shared.leases := shared.leases - gone;
    }

    /** An envelope from the bus: the instance that published it ignores it. */
    method ReceiveCommand(origin: string, agentId: string, userId: string, connectionId: string, epoch: int, data: int)
      returns (status: Status)
      modifies if agentId in agents then {agents[agentId]} else {}
      ensures origin == id ==> status == Unavailable
      ensures status == Delivered ==> LocalTarget(Registry(), agentId, userId, connectionId, epoch).Some?
      ensures agentId in agents ==>
        agents[agentId].send == old(agents[agentId].send) + if status == Delivered then [data] else []
    {
      if origin == id {
        return Unavailable;
      }
      status := DispatchCommandLocal(agentId, userId, connectionId, epoch, data);
    }

    method DispatchCommandLocal(agentId: string, userId: string, connectionId: string, epoch: int, data: int)
      returns (status: Status)
      modifies if agentId in agents then {agents[agentId]} else {}
      ensures var target := LocalTarget(Registry(), agentId, userId, connectionId, epoch);
        status == if target.None? then Unavailable
          else if |old(agents[agentId].send)| < agents[agentId].capacity then Delivered else QueueFull
      ensures agentId in agents ==>
        agents[agentId].send == old(agents[agentId].send) + if status == Delivered then [data] else []
    {
      if agentId !in agents {
        return Unavailable;
      }
      var c := agents[agentId];
      if c.conn.userId != userId {
        return Unavailable;
      }
      if connectionId != "" && c.conn.id != connectionId {
        return Unavailable;
      }
      if epoch > 0 && c.conn.epoch != epoch {
        return Unavailable;
      }
      var ok := c.TrySend(data);
      return if ok then Delivered else QueueFull;
    }

    /** One undisturbed dispatch: the message goes to the local connection, to the bus or nowhere, as routed. */
    method DispatchEnvelope(agentId: string, userId: string, data: int) returns (status: Status, ghost route: Route)
      modifies if agentId in agents then {agents[agentId]} else {}
      ensures route == RouteOf(id, userId, Lookup(Registry(), agentId),
        Lookup(shared.leases, agentId), Lookup(shared.leases, agentId))
      ensures route == Drop ==> status == Unavailable
      ensures route.Publish? ==> status == Delegated
      ensures route.Give? ==>
        (status == Unavailable <==> LocalTarget(Registry(), agentId, userId, route.connectionId, route.epoch).None?)
      ensures agentId in agents ==>
        agents[agentId].send == old(agents[agentId].send) + if status == Delivered then [data] else []
    {
      if agentId in agents {
        var c := agents[agentId].conn;
        if c.userId != userId {
          return Unavailable, Drop;
        }
        if OwnsLease(c, id, Lookup(shared.leases, agentId)) {
          status := DispatchCommandLocal(agentId, userId, c.id, c.epoch, data);
          return status, Give(c.id, c.epoch);
        }
      }
      if agentId !in shared.leases || shared.leases[agentId].userId != userId {
        return Unavailable, Drop;
      }
      var lease := shared.leases[agentId];
      if lease.instanceId == id {
        status := DispatchCommandLocal(agentId, userId, lease.connectionId, lease.epoch, data);
        return status, Give(lease.connectionId, lease.epoch);
      }
      return Delegated, Publish(lease.connectionId, lease.epoch);
    }
  }

  function Lookup<V>(m: map<string, V>, k: string): Option<V> {
    if k in m then Some(m[k]) else None
  }
}
