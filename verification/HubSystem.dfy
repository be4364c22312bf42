/** Any number of hub instances over one lease table and one message bus.

    Every read and write of a shared table is a step of its own, so dispatches, reconnects, removals, fencing and lease
    expiry interleave freely. A lease may be lost at any time: it expires, or goes without a look at it after the whole
    agent or user was disconnected. The bus hands a published envelope to each instance at most once, or not at all. */
module HubSystem {
  import opened Protocol
  import opened Hub

  datatype Envelope = Envelope(origin: string, agentId: string, userId: string, connectionId: string, epoch: int)

  /** A dispatch: what it has read so far and what it does next. */
  datatype Phase =
    | Began(local: Option<Conn>)
    | Checked(local: Option<Conn>, first: Option<Lease>)
    | Routed(lease: Option<Lease>, route: Route)
    | Published(holder: Lease, envelope: Envelope, handled: set<string>)
    | Finished(lease: Option<Lease>)

  datatype Dispatch = Dispatch(instanceId: string, agentId: string, userId: string, phase: Phase)

  datatype Removal = Looking | Deleting

  /** One message put into one send queue. */
  datatype Sent = Sent(dispatch: int, connectionId: string)

  /** `conns` and `home` list every connection ever opened and the instance it is open on; `sent` is every enqueueing
      ever done. */
  datatype System = System(
    conns: map<string, Conn>, home: map<string, string>,
    hubs: map<string, map<string, Conn>>, leases: map<string, Lease>,
    dispatches: map<int, Dispatch>, removals: map<string, Removal>, sent: seq<Sent>)

  datatype Step =
    | Add(instanceId: string, c: Conn)
    | Touch(connectionId: string)
    | LoseLease(agentId: string)
    | Remove(connectionId: string)
    | LookAtLease(connectionId: string)
    | DeleteLease(connectionId: string)
    | Disconnect(instanceId: string, agentId: string, maxEpoch: int)
    | DisconnectUser(instanceId: string, userId: string)
    | Begin(d: int, instanceId: string, agentId: string, userId: string)
    | CheckLease(d: int)
    | ChooseRoute(d: int)
    | SendLocal(d: int, full: bool)
    | PublishEnvelope(d: int)
    | ReceiveEnvelope(d: int, instanceId: string, full: bool)

  function AgentsOf(s: System, i: string): map<string, Conn> {
    if i in s.hubs then s.hubs[i] else map[]
  }

  predicate Enabled(s: System, step: Step) {
    match step
    case Add(i, c) => c.id != "" && c.id !in s.conns
    case Touch(id) => id in s.conns && id in s.home
    case LoseLease(a) => true
    case Remove(id) => id in s.conns && id in s.home && id !in s.removals
    case LookAtLease(id) => id in s.removals && s.removals[id] == Looking && id in s.conns && id in s.home
    case DeleteLease(id) => id in s.removals && s.removals[id] == Deleting && id in s.conns && id in s.home
    case Disconnect(i, a, maxEpoch) => true
    case DisconnectUser(i, userId) => true
    case Begin(d, i, a, userId) => d !in s.dispatches
    case CheckLease(d) => d in s.dispatches && s.dispatches[d].phase.Began?
    case ChooseRoute(d) => d in s.dispatches && s.dispatches[d].phase.Checked?
    case SendLocal(d, full) => d in s.dispatches && s.dispatches[d].phase.Routed? && s.dispatches[d].phase.route.Give?
    case PublishEnvelope(d) =>
      d in s.dispatches && s.dispatches[d].phase.Routed? && s.dispatches[d].phase.route.Publish?
      && s.dispatches[d].phase.lease.Some?
    case ReceiveEnvelope(d, i, full) =>
      d in s.dispatches && s.dispatches[d].phase.Published? && i !in s.dispatches[d].phase.handled
      && i != s.dispatches[d].phase.envelope.origin
  }

  function WithPhase(s: System, d: int, phase: Phase): System
    requires d in s.dispatches
  {
    s.(dispatches := s.dispatches[d := s.dispatches[d].(phase := phase)])
  }

  function Deliver(s: System, i: string, d: int, agentId: string, userId: string, connectionId: string, epoch: int, full: bool)
    : seq<Sent>
  {
    var target := LocalTarget(AgentsOf(s, i), agentId, userId, connectionId, epoch);
    if target.Some? && !full then s.sent + [Sent(d, target.value.id)] else s.sent
  }

  function Apply(s: System, step: Step): System
    requires Enabled(s, step)
  {
    match step
    case Add(i, c) =>
      s.(conns := s.conns[c.id := c], home := s.home[c.id := i], hubs := s.hubs[i := AgentsOf(s, i)[c.agentId := c]])
    case Touch(id) => s.(leases := s.leases[s.conns[id].agentId := LeaseOf(s.conns[id], s.home[id])])
    case LoseLease(a) => s.(leases := s.leases - {a})
    case Remove(id) =>
      var c, agents := s.conns[id], AgentsOf(s, s.home[id]);
      if Lookup(agents, c.agentId) == Some(c)
      then s.(hubs := s.hubs[s.home[id] := agents - {c.agentId}], removals := s.removals[id := Looking]) else s
    case LookAtLease(id) =>
      var c := s.conns[id];
      s.(removals := if OwnsLease(c, s.home[id], Lookup(s.leases, c.agentId)) then s.removals[id := Deleting]
        else s.removals - {id})
    case DeleteLease(id) => s.(leases := s.leases - {s.conns[id].agentId}, removals := s.removals - {id})
    case Disconnect(i, a, maxEpoch) =>
      var s' := s.(hubs := s.hubs[i := Disconnected(AgentsOf(s, i), a, maxEpoch)]);
      if maxEpoch > 0 && a in AgentsOf(s, i) && a !in AgentsOf(s', i)
      then s'.(removals := s.removals[AgentsOf(s, i)[a].id := Looking]) else s'
    case DisconnectUser(i, userId) =>
      s.(hubs := s.hubs[i := UserDisconnected(AgentsOf(s, i), userId)])
    case Begin(d, i, a, userId) =>
      s.(dispatches := s.dispatches[d := Dispatch(i, a, userId, Began(Lookup(AgentsOf(s, i), a)))])
    case CheckLease(d) =>
      WithPhase(s, d, Checked(s.dispatches[d].phase.local, Lookup(s.leases, s.dispatches[d].agentId)))
    case ChooseRoute(d) =>
      var x := s.dispatches[d];
      var second := Lookup(s.leases, x.agentId);
      var owned := x.phase.local.Some? && OwnsLease(x.phase.local.value, x.instanceId, x.phase.first);
      WithPhase(s, d, Routed(if owned then x.phase.first else second,
        RouteOf(x.instanceId, x.userId, x.phase.local, x.phase.first, second)))
    case SendLocal(d, full) =>
      var x := s.dispatches[d];
      WithPhase(s, d, Finished(x.phase.lease)).(sent :=
        Deliver(s, x.instanceId, d, x.agentId, x.userId, x.phase.route.connectionId, x.phase.route.epoch, full))
    case PublishEnvelope(d) =>
      var x := s.dispatches[d];
      WithPhase(s, d, Published(x.phase.lease.value,
        Envelope(x.instanceId, x.agentId, x.userId, x.phase.route.connectionId, x.phase.route.epoch), {}))
    case ReceiveEnvelope(d, i, full) =>
      var x := s.dispatches[d];
      var e := x.phase.envelope;
      WithPhase(s, d, x.phase.(handled := x.phase.handled + {i})).(sent :=
        Deliver(s, i, d, e.agentId, e.userId, e.connectionId, e.epoch, full))
  }

  predicate Initial(s: System) {
    s == System(map[], map[], map[], map[], map[], map[], [])
  }

  ghost predicate IsRun(s: System, steps: seq<Step>)
    decreases |steps|
  {
    steps == [] || (Enabled(s, steps[0]) && IsRun(Apply(s, steps[0]), steps[1..]))
  }

  ghost function Execute(s: System, steps: seq<Step>): System
    requires IsRun(s, steps)
    decreases |steps|
  {
    if steps == [] then s else Execute(Apply(s, steps[0]), steps[1..])
  }

  // ----- registrations and leases always speak of real connections -----

  predicate IsConn(s: System, c: Conn, i: string) {
    c.id != "" && c.id in s.conns && s.conns[c.id] == c && c.id in s.home && s.home[c.id] == i
  }

  predicate IsLease(s: System, agentId: string, l: Lease) {
    l.connectionId in s.conns && l.connectionId in s.home && l.connectionId != ""
    && s.conns[l.connectionId].agentId == agentId
    && l == LeaseOf(s.conns[l.connectionId], s.home[l.connectionId])
  }

  ghost predicate TablesValid(s: System) {
    && (forall id :: id in s.conns ==> id != "" && s.conns[id].id == id && id in s.home)
    && (forall i, a :: i in s.hubs && a in s.hubs[i] ==> s.hubs[i][a].agentId == a && IsConn(s, s.hubs[i][a], i))
    && (forall a :: a in s.leases ==> IsLease(s, a, s.leases[a]))
  }

  /** What a dispatch has read is real, and its route is the one its lease gives. */
  ghost predicate DispatchValid(s: System, x: Dispatch) {
    match x.phase
    case Began(local) => local.Some? ==> IsConn(s, local.value, x.instanceId) && local.value.agentId == x.agentId
    case Checked(local, first) =>
      && (local.Some? ==> IsConn(s, local.value, x.instanceId) && local.value.agentId == x.agentId)
      && (first.Some? ==> IsLease(s, x.agentId, first.value))
    case Routed(lease, route) => route != Drop ==>
      lease.Some? && IsLease(s, x.agentId, lease.value) && Follows(x, lease.value, route)
    case Published(lease, e, handled) =>
      && IsLease(s, x.agentId, lease) && lease.userId == x.userId && lease.instanceId != x.instanceId
      && e == Envelope(x.instanceId, x.agentId, x.userId, lease.connectionId, lease.epoch)
    case Finished(lease) => lease.Some? ==> IsLease(s, x.agentId, lease.value)
  }

  predicate Follows(x: Dispatch, l: Lease, route: Route) {
    match route
    case Give(id, epoch) => l.userId == x.userId && l.instanceId == x.instanceId && id == l.connectionId && epoch == l.epoch
    case Publish(id, epoch) => l.userId == x.userId && l.instanceId != x.instanceId && id == l.connectionId && epoch == l.epoch
    case Drop => true
  }

  /** The lease a dispatch went by, once it has sent anything. */
  function LeaseRead(x: Dispatch): Option<Lease> {
    match x.phase
    case Published(lease, _, _) => Some(lease)
    case Finished(lease) => lease
    case _ => None
  }

  /** The message went to the connection its lease names, and only once that connection's instance had its turn. */
  ghost predicate SentValid(s: System, m: Sent) {
    && m.dispatch in s.dispatches
    && var x := s.dispatches[m.dispatch];
    && LeaseRead(x).Some? && m.connectionId == LeaseRead(x).value.connectionId
    && LeaseRead(x).value.userId == x.userId && IsLease(s, x.agentId, LeaseRead(x).value)
    && (x.phase.Published? ==> x.phase.holder.instanceId in x.phase.handled)
  }

  ghost predicate Inv(s: System) {
    && TablesValid(s)
    && (forall d :: d in s.dispatches ==> DispatchValid(s, s.dispatches[d]))
    && (forall k :: 0 <= k < |s.sent| ==> SentValid(s, s.sent[k]))
    && (forall j, k :: 0 <= j < k < |s.sent| ==> s.sent[j].dispatch != s.sent[k].dispatch)
  }

  // ----- preservation -----

  /** More connections may exist; everything said about the old ones stays true. */
  ghost predicate Grows(s: System, s': System) {
    && (forall id :: id in s.conns ==> id in s'.conns && s'.conns[id] == s.conns[id])
    && (forall id :: id in s.home ==> id in s'.home && (id in s.conns ==> s'.home[id] == s.home[id]))
  }

  /** Taking registrations and leases away keeps the rest. */
  lemma ShrinkingKeepsTables(s: System, s': System, i: string, agents: map<string, Conn>)
    requires TablesValid(s) && s'.conns == s.conns && s'.home == s.home
    requires forall a :: a in agents ==> a in AgentsOf(s, i) && agents[a] == AgentsOf(s, i)[a]
    requires s'.hubs == s.hubs || s'.hubs == s.hubs[i := agents]
    requires forall a :: a in s'.leases ==> a in s.leases && s'.leases[a] == s.leases[a]
    ensures TablesValid(s') && Grows(s, s')
  {
  }

  lemma AddKeepsTables(s: System, i: string, c: Conn)
    requires TablesValid(s) && Enabled(s, Add(i, c))
    ensures TablesValid(Apply(s, Add(i, c))) && Grows(s, Apply(s, Add(i, c)))
  {
  }

  lemma TouchKeepsTables(s: System, id: string)
    requires TablesValid(s) && Enabled(s, Touch(id))
    ensures TablesValid(Apply(s, Touch(id))) && Grows(s, Apply(s, Touch(id)))
  {
  }

  lemma DispatchStepKeepsTables(s: System, step: Step)
    requires TablesValid(s) && Enabled(s, step) && IsDispatchStep(step)
    ensures TablesValid(Apply(s, step)) && Grows(s, Apply(s, step))
  {
    hide TablesValid, Grows;
    DispatchStepLeavesTables(s, step);
    ShrinkingKeepsTables(s, Apply(s, step), "", AgentsOf(s, ""));
  }

  lemma DispatchStepLeavesTables(s: System, step: Step)
    requires Enabled(s, step) && IsDispatchStep(step)
    ensures var s' := Apply(s, step);
      s'.conns == s.conns && s'.home == s.home && s'.hubs == s.hubs && s'.leases == s.leases
  {
    hide RouteOf, OwnsLease, Deliver;
  }

  lemma RemovalStepKeepsTables(s: System, step: Step)
    requires TablesValid(s) && Enabled(s, step)
    requires step.Remove? || step.LookAtLease? || step.DeleteLease? || step.LoseLease?
    ensures TablesValid(Apply(s, step)) && Grows(s, Apply(s, step))
  {
    hide OwnsLease, TablesValid, Grows;
    var i, agents := "", AgentsOf(s, "");
    if step.Remove? {
      i, agents := s.home[step.connectionId], AgentsOf(s, s.home[step.connectionId]) - {s.conns[step.connectionId].agentId};
    }
    ShrinkingKeepsTables(s, Apply(s, step), i, agents);
  }

  lemma DisconnectKeepsTables(s: System, step: Step)
    requires TablesValid(s) && Enabled(s, step) && (step.Disconnect? || step.DisconnectUser?)
    ensures TablesValid(Apply(s, step)) && Grows(s, Apply(s, step))
  {
    hide OwnsLease, TablesValid, Grows;
    var agents := if step.Disconnect? then Disconnected(AgentsOf(s, step.instanceId), step.agentId, step.maxEpoch)
      else UserDisconnected(AgentsOf(s, step.instanceId), step.userId);
    ShrinkingKeepsTables(s, Apply(s, step), step.instanceId, agents);
  }

  lemma TablesKeep(s: System, step: Step)
    requires TablesValid(s) && Enabled(s, step)
    ensures TablesValid(Apply(s, step)) && Grows(s, Apply(s, step))
  {
    hide TablesValid, Grows, Apply, Enabled;
    match step
    case Add(i, c) => AddKeepsTables(s, i, c);
    case Touch(id) => TouchKeepsTables(s, id);
    case LoseLease(_) => RemovalStepKeepsTables(s, step);
    case Remove(_) => RemovalStepKeepsTables(s, step);
    case LookAtLease(_) => RemovalStepKeepsTables(s, step);
    case DeleteLease(_) => RemovalStepKeepsTables(s, step);
    case Disconnect(_, _, _) => DisconnectKeepsTables(s, step);
    case DisconnectUser(_, _) => DisconnectKeepsTables(s, step);
    case _ => DispatchStepKeepsTables(s, step);
  }

  lemma DispatchGrows(s: System, s': System, x: Dispatch)
    requires Grows(s, s') && DispatchValid(s, x)
    ensures DispatchValid(s', x)
  {
  }

  lemma SentGrows(s: System, s': System, m: Sent)
    requires Grows(s, s') && SentValid(s, m)
    requires m.dispatch in s'.dispatches
    requires LeaseRead(s'.dispatches[m.dispatch]) == LeaseRead(s.dispatches[m.dispatch])
    requires s'.dispatches[m.dispatch].userId == s.dispatches[m.dispatch].userId
    requires s'.dispatches[m.dispatch].agentId == s.dispatches[m.dispatch].agentId
    requires s'.dispatches[m.dispatch].phase.Published? ==>
      (s.dispatches[m.dispatch].phase.Published?
       && s.dispatches[m.dispatch].phase.handled <= s'.dispatches[m.dispatch].phase.handled)
    ensures SentValid(s', m)
  {
  }

  predicate IsDispatchStep(step: Step) {
    step.Begin? || step.CheckLease? || step.ChooseRoute? || step.SendLocal? || step.PublishEnvelope? || step.ReceiveEnvelope?
  }

  lemma TableStepKeepsInv(s: System, step: Step)
    requires Inv(s) && Enabled(s, step) && !IsDispatchStep(step)
    ensures Inv(Apply(s, step))
  {
    hide DispatchValid, SentValid, TablesValid, OwnsLease, Grows, Disconnected, UserDisconnected;
    TablesKeep(s, step);
    var s' := Apply(s, step);
    assert s'.dispatches == s.dispatches && s'.sent == s.sent;
    forall d | d in s.dispatches
      ensures DispatchValid(s', s.dispatches[d])
    {
      DispatchGrows(s, s', s.dispatches[d]);
    }
    forall k | 0 <= k < |s.sent|
      ensures SentValid(s', s.sent[k])
    {
      SentInDispatches(s, s.sent[k]);
      SentGrows(s, s', s.sent[k]);
    }
  }

  lemma SentInDispatches(s: System, m: Sent)
    requires SentValid(s, m)
    ensures m.dispatch in s.dispatches && LeaseRead(s.dispatches[m.dispatch]).Some?
    ensures var x := s.dispatches[m.dispatch];
      x.phase.Published? ==> x.phase.holder.instanceId in x.phase.handled
  {
  }

  lemma ChooseRouteIsValid(s: System, d: int)
    requires Inv(s) && Enabled(s, ChooseRoute(d))
    ensures DispatchValid(s, Apply(s, ChooseRoute(d)).dispatches[d])
  {
    hide SentValid;
    assert DispatchValid(s, s.dispatches[d]);
  }

  lemma ReadStepKeepsInv(s: System, step: Step, d: int)
    requires Inv(s) && Enabled(s, step)
    requires step == CheckLease(d) || step == ChooseRoute(d) || step == PublishEnvelope(d) || (step.Begin? && step.d == d)
    ensures Inv(Apply(s, step))
  {
    hide DispatchValid, SentValid, TablesValid, OwnsLease, RouteOf, Grows;
    TablesKeep(s, step);
    var s' := Apply(s, step);
    ReadStepIsValid(s, step, d);
    assert s'.sent == s.sent && s'.conns == s.conns && s'.home == s.home;
    forall k | k in s'.dispatches
      ensures DispatchValid(s', s'.dispatches[k])
    {
      DispatchGrows(s, s', s'.dispatches[k]);
    }
    forall k | 0 <= k < |s.sent|
      ensures SentValid(s', s.sent[k])
    {
      SentInDispatches(s, s.sent[k]);
      SentGrows(s, s', s.sent[k]);
    }
  }

  lemma ReadStepIsValid(s: System, step: Step, d: int)
    requires Inv(s) && Enabled(s, step)
    requires step == CheckLease(d) || step == ChooseRoute(d) || step == PublishEnvelope(d) || (step.Begin? && step.d == d)
    ensures DispatchValid(s, Apply(s, step).dispatches[d])
    ensures d in s.dispatches ==> LeaseRead(s.dispatches[d]) == None
  {
    hide SentValid, OwnsLease, RouteOf;
    if step.ChooseRoute? {
      ChooseRouteIsValid(s, d);
    } else if !step.Begin? {
      assert DispatchValid(s, s.dispatches[d]);
    }
  }

  /** A connection that takes a message addressed by a lease is the one the lease names, on the instance it names. */
  lemma TargetIsLeaseHolder(s: System, i: string, agentId: string, userId: string, l: Lease)
    requires TablesValid(s) && IsLease(s, agentId, l)
    requires LocalTarget(AgentsOf(s, i), agentId, userId, l.connectionId, l.epoch).Some?
    ensures LocalTarget(AgentsOf(s, i), agentId, userId, l.connectionId, l.epoch).value == s.conns[l.connectionId]
    ensures i == l.instanceId && l.userId == userId
  {
  }

  lemma SendStepKeepsInv(s: System, step: Step, d: int)
    requires Inv(s) && Enabled(s, step) && ((step.SendLocal? && step.d == d) || (step.ReceiveEnvelope? && step.d == d))
    ensures Inv(Apply(s, step))
  {
    hide DispatchValid, SentValid, TablesValid, OwnsLease, RouteOf, Grows, LocalTarget, IsLease;
    TablesKeep(s, step);
    var s' := Apply(s, step);
    SendStepIsValid(s, step, d);
    forall k | k in s'.dispatches
      ensures DispatchValid(s', s'.dispatches[k])
    {
      DispatchGrows(s, s', s'.dispatches[k]);
    }
    forall k | 0 <= k < |s'.sent|
      ensures SentValid(s', s'.sent[k])
      ensures k == |s.sent| ==> forall j :: 0 <= j < k ==> s'.sent[j].dispatch != d
    {
      if k < |s.sent| {
        assert s'.sent[k] == s.sent[k];
        SentInDispatches(s, s.sent[k]);
        SentGrows(s, s', s.sent[k]);
      } else {
        forall j | 0 <= j < |s.sent|
          ensures s.sent[j].dispatch != d
        {
          SentInDispatches(s, s.sent[j]);
        }
      }
    }
  }

  lemma SendStepIsValid(s: System, step: Step, d: int)
    requires Inv(s) && Enabled(s, step) && ((step.SendLocal? && step.d == d) || (step.ReceiveEnvelope? && step.d == d))
    ensures var s', x := Apply(s, step), s.dispatches[d];
      && DispatchValid(s, s'.dispatches[d])
      && (s'.sent != s.sent ==> |s'.sent| == |s.sent| + 1 && s'.sent[|s.sent|].dispatch == d && SentValid(s', s'.sent[|s.sent|]))
      && (s'.sent != s.sent ==> x.phase.Routed? || (x.phase.Published? && x.phase.holder.instanceId !in x.phase.handled))
      && s.sent <= s'.sent
  {
    var x := s.dispatches[d];
    assert DispatchValid(s, x);
    hide SentValid, OwnsLease, RouteOf, LocalTarget, DispatchValid, IsLease, TablesValid;
    LeaseOfSend(s, step, d);
    if Apply(s, step).sent != s.sent {
      var l := if step.SendLocal? then x.phase.lease.value else x.phase.holder;
      var i := if step.SendLocal? then x.instanceId else step.instanceId;
      TargetIsLeaseHolder(s, i, x.agentId, x.userId, l);
      NewSentValid(s, step, d, l);
    }
  }

  lemma LeaseOfSend(s: System, step: Step, d: int)
    requires Inv(s) && Enabled(s, step) && ((step.SendLocal? && step.d == d) || (step.ReceiveEnvelope? && step.d == d))
    ensures var x := s.dispatches[d];
      && TablesValid(s) && DispatchValid(s, Apply(s, step).dispatches[d])
      && (step.SendLocal? ==> x.phase.lease.Some?)
      && (step.SendLocal? ==> IsLease(s, x.agentId, x.phase.lease.value))
      && (step.SendLocal? ==> x.phase.route == Give(x.phase.lease.value.connectionId, x.phase.lease.value.epoch))
      && (step.ReceiveEnvelope? ==> IsLease(s, x.agentId, x.phase.holder))
      && (step.ReceiveEnvelope? ==>
        x.phase.envelope == Envelope(x.instanceId, x.agentId, x.userId, x.phase.holder.connectionId, x.phase.holder.epoch))
  {
    hide SentValid, OwnsLease, RouteOf, LocalTarget;
    assert DispatchValid(s, s.dispatches[d]);
  }

  lemma NewSentValid(s: System, step: Step, d: int, l: Lease)
    requires TablesValid(s) && Enabled(s, step) && Apply(s, step).sent == s.sent + [Sent(d, l.connectionId)]
    requires (step.SendLocal? && step.d == d) || (step.ReceiveEnvelope? && step.d == d)
    requires IsLease(s, s.dispatches[d].agentId, l) && l.userId == s.dispatches[d].userId
    requires if step.SendLocal? then s.dispatches[d].phase.lease == Some(l)
      else s.dispatches[d].phase.holder == l && step.instanceId == l.instanceId
    ensures SentValid(Apply(s, step), Sent(d, l.connectionId))
  {
    hide OwnsLease, RouteOf, LocalTarget;
  }

  lemma StepKeepsInv(s: System, step: Step)
    requires Inv(s) && Enabled(s, step)
    ensures Inv(Apply(s, step))
  {
    hide Inv, Enabled, Apply;
    match step
    case Begin(d, _, _, _) => ReadStepKeepsInv(s, step, d);
    case CheckLease(d) => ReadStepKeepsInv(s, step, d);
    case ChooseRoute(d) => ReadStepKeepsInv(s, step, d);
    case PublishEnvelope(d) => ReadStepKeepsInv(s, step, d);
    case SendLocal(d, _) => SendStepKeepsInv(s, step, d);
    case ReceiveEnvelope(d, _, _) => SendStepKeepsInv(s, step, d);
    case _ => TableStepKeepsInv(s, step);
  }

  lemma {:induction false} RunKeepsInv(s: System, steps: seq<Step>)
    requires Inv(s) && IsRun(s, steps)
    ensures Inv(Execute(s, steps))
    decreases |steps|
  {
    hide Inv, Enabled, Apply;
    if steps != [] {
      StepKeepsInv(s, steps[0]);
      RunKeepsInv(Apply(s, steps[0]), steps[1..]);
    }
  }

  /** Over every run of any number of instances: a dispatch puts its message into at most one queue, once, and that
      connection is the one, with the epoch, the user and the agent, of the lease the dispatch went by. */
  lemma SingleDelivery(s: System, steps: seq<Step>, k: nat)
    requires Initial(s) && IsRun(s, steps) && k < |Execute(s, steps).sent|
    ensures var s' := Execute(s, steps);
      var m := s'.sent[k];
      && (forall j :: 0 <= j < |s'.sent| && j != k ==> s'.sent[j].dispatch != m.dispatch)
      && m.dispatch in s'.dispatches && m.connectionId in s'.conns
      && var x, c := s'.dispatches[m.dispatch], s'.conns[m.connectionId];
      && c.userId == x.userId && c.agentId == x.agentId
      && LeaseRead(x).Some? && LeaseRead(x).value.connectionId == c.id
      && LeaseRead(x).value.epoch == c.epoch && LeaseRead(x).value.userId == c.userId
  {
    hide IsRun, Execute;
    RunKeepsInv(s, steps);
    assert SentValid(Execute(s, steps), Execute(s, steps).sent[k]);
  }

  // ----- removals -----

  predicate IsRemovalOf(step: Step, id: string) {
    step == Remove(id) || step == LookAtLease(id) || step == DeleteLease(id)
  }

  /** However late the removal of a connection runs, no other registration goes with it, on any instance; in particular
      the connection that replaced it stays. */
  lemma RemovalKeepsOthers(s: System, step: Step, id: string, i: string, a: string)
    requires Inv(s) && Enabled(s, step) && IsRemovalOf(step, id)
    requires a in AgentsOf(s, i) && AgentsOf(s, i)[a].id != id
    ensures a in AgentsOf(Apply(s, step), i) && AgentsOf(Apply(s, step), i)[a] == AgentsOf(s, i)[a]
  {
    hide DispatchValid, SentValid, OwnsLease;
  }

  /** Fencing up to an epoch leaves every connection of a later epoch registered. */
  lemma FencingKeepsLaterEpochs(s: System, i: string, agentId: string, maxEpoch: int, i': string, a: string)
    requires Enabled(s, Disconnect(i, agentId, maxEpoch)) && maxEpoch > 0
    requires a in AgentsOf(s, i') && AgentsOf(s, i')[a].epoch > maxEpoch
    ensures var s' := Apply(s, Disconnect(i, agentId, maxEpoch));
      a in AgentsOf(s', i') && AgentsOf(s', i')[a] == AgentsOf(s, i')[a]
  {
    hide OwnsLease, RouteOf, LocalTarget, UserDisconnected, Deliver, LeaseOf;
    assert Apply(s, Disconnect(i, agentId, maxEpoch)).hubs == s.hubs[i := Disconnected(AgentsOf(s, i), agentId, maxEpoch)];
  }

  /** Another connection of the same agent renews the lease. */
  predicate IsRival(s: System, step: Step, id: string) {
    step.Touch? && step.connectionId != id && step.connectionId in s.conns && id in s.conns
    && s.conns[step.connectionId].agentId == s.conns[id].agentId
  }

  predicate OwnLeaseOrNone(s: System, id: string) {
    && id in s.conns && id in s.home
    && (s.conns[id].agentId in s.leases ==> s.leases[s.conns[id].agentId] == LeaseOf(s.conns[id], s.home[id]))
  }

  predicate HasLease(s: System, id: string) {
    id in s.conns && s.conns[id].agentId in s.leases
  }

  /** From here on the agent never goes without a lease, and the connection does not renew its own. */
  ghost predicate LeaseStands(s: System, steps: seq<Step>, id: string)
    requires IsRun(s, steps)
    decreases |steps|
  {
    HasLease(s, id) && (steps == [] || (steps[0] != Touch(id) && LeaseStands(Apply(s, steps[0]), steps[1..], id)))
  }

  /** A rival renews the lease during the run, and that lease stands to its end. */
  ghost predicate RivalHolds(s: System, steps: seq<Step>, id: string)
    requires IsRun(s, steps)
    decreases |steps|
  {
    steps != []
    && (|| (IsRival(s, steps[0], id) && LeaseStands(Apply(s, steps[0]), steps[1..], id))
        || RivalHolds(Apply(s, steps[0]), steps[1..], id))
  }

  lemma StepMakesForeignIff(s: System, step: Step, id: string)
    requires TablesValid(s) && Enabled(s, step) && id in s.conns
    ensures var s' := Apply(s, step);
      && id in s'.conns
      && (!OwnLeaseOrNone(s', id) <==>
          IsRival(s, step, id) || (!OwnLeaseOrNone(s, id) && step != Touch(id) && HasLease(s', id)))
      && (IsRival(s, step, id) ==> HasLease(s', id))
  {
    hide OwnsLease, RouteOf, LocalTarget, Disconnected, UserDisconnected, Deliver;
    if IsDispatchStep(step) {
      DispatchStepLeavesTables(s, step);
    }
  }

  lemma {:induction false} ForeignIff(s: System, steps: seq<Step>, id: string)
    requires TablesValid(s) && IsRun(s, steps) && id in s.conns
    ensures !OwnLeaseOrNone(Execute(s, steps), id) <==>
      RivalHolds(s, steps, id) || (!OwnLeaseOrNone(s, id) && LeaseStands(s, steps, id))
    decreases |steps|
  {
    hide TablesValid, Enabled, Apply, OwnLeaseOrNone, IsRival, HasLease;
    ForeignIsThere(s, id);
    if steps != [] {
      StepMakesForeignIff(s, steps[0], id);
      TablesKeep(s, steps[0]);
      ForeignIff(Apply(s, steps[0]), steps[1..], id);
    }
  }

  lemma ForeignIsThere(s: System, id: string)
    requires TablesValid(s) && id in s.conns
    ensures !OwnLeaseOrNone(s, id) ==> HasLease(s, id)
  {
  }

  /** The lease is looked at first and deleted later, whatever happens in between. What the deletion takes is another
      connection's lease if and only if some rival renewed it in between and since then neither the removed connection
      renewed its own nor the agent went without one; otherwise it takes the connection's own lease or none. */
  lemma RemovalDeletesForeignLeaseIff(s: System, steps: seq<Step>, id: string)
    requires Inv(s) && Enabled(s, LookAtLease(id)) && id in Apply(s, LookAtLease(id)).removals
    requires IsRun(Apply(s, LookAtLease(id)), steps)
    ensures var looked := Apply(s, LookAtLease(id)); var s' := Execute(looked, steps);
      && (!OwnLeaseOrNone(s', id) <==> RivalHolds(looked, steps, id))
      && (Enabled(s', DeleteLease(id)) ==>
        !HasLease(Apply(s', DeleteLease(id)), id) && Apply(s', DeleteLease(id)).hubs == s'.hubs)
  {
    hide DispatchValid, SentValid, Execute, IsRun, RivalHolds, LeaseStands;
    TablesKeep(s, LookAtLease(id));
    assert IsLease(s, s.conns[id].agentId, s.leases[s.conns[id].agentId]);
    ForeignIff(Apply(s, LookAtLease(id)), steps, id);
  }

  /** No rival renews the lease during the run. */
  ghost predicate Unrivalled(s: System, steps: seq<Step>, id: string)
    requires IsRun(s, steps)
    decreases |steps|
  {
    steps == [] || (!IsRival(s, steps[0], id) && Unrivalled(Apply(s, steps[0]), steps[1..], id))
  }

  lemma {:induction false} UnrivalledIsNotHeld(s: System, steps: seq<Step>, id: string)
    requires IsRun(s, steps) && Unrivalled(s, steps, id)
    ensures !RivalHolds(s, steps, id)
    decreases |steps|
  {
    hide Enabled, Apply, IsRival;
    if steps != [] {
      UnrivalledIsNotHeld(Apply(s, steps[0]), steps[1..], id);
    }
  }

  /** So without a rival the removal takes its own lease or none. */
  lemma RemovalDeletesOwnLease(s: System, steps: seq<Step>, id: string)
    requires Inv(s) && Enabled(s, LookAtLease(id)) && id in Apply(s, LookAtLease(id)).removals
    requires IsRun(Apply(s, LookAtLease(id)), steps) && Unrivalled(Apply(s, LookAtLease(id)), steps, id)
    ensures OwnLeaseOrNone(Execute(Apply(s, LookAtLease(id)), steps), id)
  {
    hide Inv, Enabled, Apply, Execute, IsRun, Unrivalled, RivalHolds, OwnLeaseOrNone;
    UnrivalledIsNotHeld(Apply(s, LookAtLease(id)), steps, id);
    RemovalDeletesForeignLeaseIff(s, steps, id);
  }

  /** And with one that renews just before the deletion it takes the rival's: the successor stays registered on its
      instance, and other instances cannot find it until it renews the lease again. */
  lemma RivalLosesItsLease(s: System, id: string, rival: Step)
    requires Inv(s) && Enabled(s, LookAtLease(id)) && id in Apply(s, LookAtLease(id)).removals
    requires Enabled(Apply(s, LookAtLease(id)), rival) && IsRival(Apply(s, LookAtLease(id)), rival, id)
    ensures var s' := Apply(Apply(s, LookAtLease(id)), rival);
      && !OwnLeaseOrNone(s', id) && Enabled(s', DeleteLease(id))
      && !HasLease(Apply(s', DeleteLease(id)), rival.connectionId) && Apply(s', DeleteLease(id)).hubs == s.hubs
  {
    hide DispatchValid, SentValid;
    var looked := Apply(s, LookAtLease(id));
    assert [rival][1..] == [];
    assert IsRun(looked, [rival]) && IsRun(Apply(looked, rival), []);
    assert Execute(Apply(looked, rival), []) == Execute(looked, [rival]);
    RemovalDeletesForeignLeaseIff(s, [rival], id);
  }
}
