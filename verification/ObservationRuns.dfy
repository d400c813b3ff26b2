/** Every interleaving of submits, lane goroutines, sink calls, timeouts and shutdown of the two observation dispatchers
    (backend/internal/agentcontrol/plugin_observation_dispatcher.go and discovery_observer.go).

    A lane is carried by one goroutine at a time: the worker hands over to the quarantine waiter when it times out, and
    the waiter hands back when it restarts a worker.  `Thread` says where that goroutine is; a lane without
    one is carried by nobody.  Sink calls run on their own and may return at any later time. */
module ObservationRuns {
  import opened Wrappers
  import opened ObservationLanes

  datatype Outcome = Done | Rejected | Failed

  /** A sink call; `outcome.None?` while it is in flight. */
  datatype Call = Call(lane: LaneId, report: Report, outcome: Option<Outcome>)

  datatype Thread =
    | Select                               // run: waiting for a wake token or the stop signal
    | Inner                                // run: about to take
    | Retiring                             // run: found nothing to take, about to retire
    | Calling(report: Report)              // deliver: about to call the sink
    | Delivering(report: Report, call: nat)
    | Backoff(report: Report)
    | Persisting(report: Report)
    | Clearing(report: Report)
    | Awaiting(report: Report, call: nat)  // awaitQuarantined: waiting for the late result
    | LatePersisting(report: Report)
    | Releasing(report: Report)
    | Restarting                           // awaitQuarantined: about to start a new worker

  datatype System = System(d: Dispatcher, threads: map<LaneId, Thread>, calls: map<nat, Call>)

  datatype Action =
    | SubmitReport(agent: Agent, report: Report, valid: bool, now: int)
    | Close
    | SinkReturns(id: nat, outcome: Outcome)
    | Proceeds(lane: LaneId, now: int, call: nat)
    | TimesOut(lane: LaneId)
    | Stops(lane: LaneId)

  // ---- Steps ---------------------------------------------------------------------------------

  function Go(s: System, id: LaneId, l: Lane, t: Thread): System {
    System(SetLane(s.d, id, l), s.threads[id := t], s.calls)
  }

  function End(s: System, id: LaneId): System {
    s.(threads := s.threads - {id})
  }

  function AfterResult(f: Flavour, r: Report, outcome: Outcome): Thread {
    if outcome.Done? then Persisting(r) else if f.Discovery? && outcome.Rejected? then Clearing(r) else Backoff(r)
  }

  function Release(f: Flavour, s: System, id: LaneId): System {
    var l := Released(LaneAt(s.d, id));
    var released := Go(s, id, l, Restarting);
    if ReleaseDrops(f, s.d, l) then End(released.(d := Unregister(released.d, l.agent)), id)
    else if f.Plugin? && !s.d.closed then released
    else End(released, id)
  }

  function Retire(s: System, id: LaneId): System {
    var l := LaneAt(s.d, id);
    if Retires(l) then End(s.(d := Unregister(s.d, l.agent)), id) else Go(s, id, l, Select)
  }

  ghost function PersistStep(f: Flavour, s: System, id: LaneId, r: Report, now: int, t: Thread): System {
    System(Persist(f, s.d, LaneAt(s.d, id).agent, r, now), s.threads[id := t], s.calls)
  }

  /** The next step of the goroutine that carries a lane; nothing while it has to wait. */
  ghost function Proceed(f: Flavour, s: System, id: LaneId, now: int, call: nat): System
    requires id in s.threads
  {
    var l := LaneAt(s.d, id);
    match s.threads[id]
    case Select => if l.wake then Go(s, id, l.(wake := false), Inner) else s
    case Inner =>
      var taken := Take(l);
      Go(s, id, taken.0, if taken.1.Some? then Calling(taken.1.value) else Retiring)
    case Retiring => Retire(s, id)
    case Calling(r) =>
      if call in s.calls then s else Start(s, id, r, call)
    case Delivering(r, c) =>
      if c in s.calls && s.calls[c].outcome.Some? then Go(s, id, l, AfterResult(f, r, s.calls[c].outcome.value)) else s
    case Backoff(r) => Go(s, id, l, Calling(r))
    case Persisting(r) => PersistStep(f, s, id, r, now, Clearing(r))
    case Clearing(_) => Go(s, id, l.(active := None), Inner)
    case Awaiting(r, c) =>
      if c in s.calls && s.calls[c].outcome.Some?
      then Go(s, id, l, if s.calls[c].outcome.value.Done? then LatePersisting(r) else Releasing(r)) else s
    case LatePersisting(r) => PersistStep(f, s, id, r, now, Releasing(r))
    case Releasing(_) => Release(f, s, id)
    case Restarting => Go(s, id, l.(wake := true), Select)
  }

  function SubmitStep(f: Flavour, s: System, agent: Agent, report: Report, valid: bool, now: int): System {
    var d := Submit(f, s.d, agent, report, valid, now).0;
    var threads := if agent !in s.d.lanes && agent in d.lanes then s.threads[d.lanes[agent] := Select] else s.threads;
    System(d, threads, s.calls)
  }

  function TimeOut(s: System, id: LaneId): System {
    if id in s.threads && s.threads[id].Delivering?
    then Go(s, id, LaneAt(s.d, id).(quarantined := true), Awaiting(s.threads[id].report, s.threads[id].call)) else s
  }

  function Stop(s: System, id: LaneId): System {
    if s.d.closed && id in s.threads && (s.threads[id].Select? || s.threads[id].Delivering? || s.threads[id].Backoff?)
    then End(s, id) else s
  }

  function Return(s: System, id: nat, outcome: Outcome): System {
    if id in s.calls && s.calls[id].outcome.None?
    then s.(calls := s.calls[id := s.calls[id].(outcome := Some(outcome))]) else s
  }

  ghost function Step(f: Flavour, s: System, a: Action): System {
    match a
    case SubmitReport(agent, report, valid, now) => SubmitStep(f, s, agent, report, valid, now)
    case Close => s.(d := s.d.(closed := true))
    case SinkReturns(id, outcome) => Return(s, id, outcome)
    case Proceeds(id, now, call) => if id in s.threads then Proceed(f, s, id, now, call) else s
    case TimesOut(id) => TimeOut(s, id)
    case Stops(id) => Stop(s, id)
  }

  function Fresh(maximum: nat, refresh: int): System {
    System(Dispatcher(maximum, refresh, map[], map[], 0, map[], [], false), map[], map[])
  }

  ghost function Run(f: Flavour, start: System, actions: seq<Action>): System {
    if actions == [] then start else Step(f, Run(f, start, actions[..|actions| - 1]), actions[|actions| - 1])
  }

  // ---- Invariants ----------------------------------------------------------------------------

  predicate Registered(d: Dispatcher, id: LaneId) {
    id in d.table && d.table[id].agent in d.lanes && d.lanes[d.table[id].agent] == id
  }

  /** Registered lanes exist and belong to their agent, and there are not too many. */
  ghost predicate RegistryInv(d: Dispatcher) {
    && (forall a :: a in d.lanes ==> d.lanes[a] in d.table && d.table[d.lanes[a]].agent == a)
    && (forall id :: id in d.table ==> id < d.next)
    && |d.lanes| <= d.maximum
  }

  /** What the fields of a lane are while its goroutine is at `t`. */
  predicate PhaseOk(l: Lane, t: Thread) {
    match t
    case Select => l.active.None? && !l.quarantined && (l.pending.Some? ==> l.wake)
    case Inner => l.active.None? && !l.quarantined
    case Retiring => l.active.None? && !l.quarantined && (l.pending.Some? ==> l.wake)
    case Calling(r) => l.active == Some(r) && !l.quarantined
    case Delivering(r, _) => l.active == Some(r) && !l.quarantined
    case Backoff(r) => l.active == Some(r) && !l.quarantined
    case Persisting(r) => l.active == Some(r) && !l.quarantined
    case Clearing(r) => l.active == Some(r) && !l.quarantined
    case Awaiting(r, _) => l.active == Some(r) && l.quarantined
    case LatePersisting(r) => l.active == Some(r) && l.quarantined
    case Releasing(r) => l.active == Some(r) && l.quarantined
    case Restarting => l.active.None? && !l.quarantined && l.pending.Some?
  }

  /** A goroutine carries a registered lane and knows its state. */
  ghost predicate ThreadInv(s: System) {
    forall id :: id in s.threads ==> Registered(s.d, id) && PhaseOk(s.d.table[id], s.threads[id])
  }

  predicate Waits(t: Thread) {
    t.Delivering? || t.Awaiting?
  }

  predicate InFlight(calls: map<nat, Call>, c: nat) {
    c in calls && calls[c].outcome.None?
  }

  /** A call in flight is the one its lane's goroutine waits for, or was left behind by a goroutine that was stopped. */
  ghost predicate Owned(s: System, id: LaneId, c: nat) {
    && Registered(s.d, id)
    && (id in s.threads ==> Waits(s.threads[id]) && s.threads[id].call == c)
    && (id !in s.threads ==> s.d.closed)
  }

  ghost predicate CallInv(s: System) {
    && (forall id :: id in s.threads && Waits(s.threads[id]) ==>
          s.threads[id].call in s.calls && s.calls[s.threads[id].call].lane == id)
    && (forall c :: InFlight(s.calls, c) ==> Owned(s, s.calls[c].lane, c))
    && (forall c, e :: InFlight(s.calls, c) && InFlight(s.calls, e) && s.calls[c].lane == s.calls[e].lane ==> c == e)
  }

  /** At least as new as what is remembered of the agent, and the same report where the revision is the same. */
  predicate Ahead(r: Report, last: map<Agent, Record>, a: Agent) {
    a in last ==> r.revision > last[a].report.revision || r == last[a].report
  }

  predicate LaneOrdered(l: Lane, last: map<Agent, Record>) {
    && (l.pending.Some? && l.active.Some? ==> l.pending.value.revision > l.active.value.revision)
    && (l.pending.Some? ==> Ahead(l.pending.value, last, l.agent))
    && (l.active.Some? ==> Ahead(l.active.value, last, l.agent))
  }

  ghost predicate OrderInv(d: Dispatcher) {
    forall id :: Registered(d, id) ==> LaneOrdered(d.table[id], d.last)
  }

  /** Nothing is being delivered, a report waits, and nobody carries the lane. */
  predicate Stranded(s: System, id: LaneId) {
    && id in s.d.table && id !in s.threads
    && s.d.table[id].pending.Some? && s.d.table[id].active.None? && !s.d.table[id].quarantined
  }

  /** While the dispatcher is open every registered lane is carried; a discovery lane may also be stranded. */
  ghost predicate AttendInv(f: Flavour, s: System) {
    !s.d.closed ==> forall id :: Registered(s.d, id) ==> id in s.threads || (f.Discovery? && Stranded(s, id))
  }

  ghost predicate Inv(f: Flavour, s: System) {
    RegistryInv(s.d) && ThreadInv(s) && CallInv(s) && OrderInv(s.d) && AttendInv(f, s)
  }

  // ---- Steps of a lane's goroutine -----------------------------------------------------------

  /** The goroutine may move on from `t` to `t'` as far as its sink call is concerned. */
  ghost predicate CallsFit(s: System, t: Thread, t': Thread) {
    && (Waits(t') ==> Waits(t) && t'.call == t.call)
    && (Waits(t) && !Waits(t') ==> !InFlight(s.calls, t.call))
  }

  lemma GoKeeps(f: Flavour, s: System, id: LaneId, l: Lane, t: Thread)
    requires Inv(f, s) && id in s.threads && l.agent == LaneAt(s.d, id).agent
    requires PhaseOk(l, t) && LaneOrdered(l, s.d.last) && CallsFit(s, s.threads[id], t)
    ensures Inv(f, Go(s, id, l, t))
  {
    GoRegistered(s, id, l, t);
    GoKeepsThreads(s, id, l, t);
    GoKeepsCalls(s, id, l, t);
  }

  lemma GoRegistered(s: System, id: LaneId, l: Lane, t: Thread)
    requires id in s.d.table && l.agent == LaneAt(s.d, id).agent
    ensures forall i :: Registered(s.d, i) <==> Registered(Go(s, id, l, t).d, i)
  {
  }

  lemma GoKeepsThreads(s: System, id: LaneId, l: Lane, t: Thread)
    requires ThreadInv(s) && id in s.threads && l.agent == LaneAt(s.d, id).agent && PhaseOk(l, t)
    ensures ThreadInv(Go(s, id, l, t))
  {
    hide PhaseOk;
  }

  lemma GoKeepsCalls(s: System, id: LaneId, l: Lane, t: Thread)
    requires ThreadInv(s) && CallInv(s) && id in s.threads && l.agent == LaneAt(s.d, id).agent
             && CallsFit(s, s.threads[id], t)
    ensures CallInv(Go(s, id, l, t))
  {
    hide PhaseOk;
    var s' := Go(s, id, l, t);
    forall c | InFlight(s'.calls, c) ensures Owned(s', s'.calls[c].lane, c) {
      assert Owned(s, s.calls[c].lane, c);
    }
  }

  /** The calls are unaffected when no waiting goroutine changes and owned calls stay owned. */
  lemma CallsStay(s: System, s': System)
    requires CallInv(s) && s'.calls == s.calls
    requires forall i :: i in s'.threads && Waits(s'.threads[i]) ==> i in s.threads && s.threads[i] == s'.threads[i]
    requires forall i, c :: Owned(s, i, c) ==> Owned(s', i, c)
    ensures CallInv(s')
  {
    hide Owned;
  }

  /** A goroutine ends in a closed dispatcher, whatever its call does. */
  lemma StopKeeps(f: Flavour, s: System, id: LaneId)
    requires Inv(f, s) && s.d.closed
    ensures Inv(f, End(s, id))
  {
    hide PhaseOk, Registered, RegistryInv, OrderInv, CallInv;
    CallsStay(s, End(s, id));
  }

  lemma UnregisterRegistered(d: Dispatcher, id: LaneId)
    requires RegistryInv(d) && Registered(d, id)
    ensures RegistryInv(Unregister(d, d.table[id].agent))
    ensures forall i :: Registered(Unregister(d, d.table[id].agent), i) <==> Registered(d, i) && i != id
  {
    var a := d.table[id].agent;
    assert Unregister(d, a).lanes.Keys == d.lanes.Keys - {a};
  }

  lemma UnregisterKeeps(f: Flavour, s: System, id: LaneId)
    requires Inv(f, s) && id in s.threads && !Waits(s.threads[id])
    ensures Inv(f, End(s.(d := Unregister(s.d, LaneAt(s.d, id).agent)), id))
  {
    hide PhaseOk, LaneOrdered, CallInv, RegistryInv;
    UnregisterRegistered(s.d, id);
    var s' := End(s.(d := Unregister(s.d, LaneAt(s.d, id).agent)), id);
    UnregisterOwned(s, id);
    CallsStay(s, s');
    assert AttendInv(f, s');
  }

  lemma UnregisterOwned(s: System, id: LaneId)
    requires ThreadInv(s) && RegistryInv(s.d) && id in s.threads && !Waits(s.threads[id])
    ensures var s' := End(s.(d := Unregister(s.d, LaneAt(s.d, id).agent)), id);
            forall i, c :: Owned(s, i, c) ==> Owned(s', i, c)
  {
    hide PhaseOk, RegistryInv;
    UnregisterRegistered(s.d, id);
  }

  function Start(s: System, id: LaneId, r: Report, call: nat): System {
    System(s.d, s.threads[id := Delivering(r, call)], s.calls[call := Call(id, r, None)])
  }

  lemma StartKeepsCalls(s: System, id: LaneId, r: Report, call: nat)
    requires CallInv(s) && id in s.threads && s.threads[id].Calling? && call !in s.calls && Registered(s.d, id)
    ensures CallInv(Start(s, id, r, call))
  {
    hide Registered;
    var s' := Start(s, id, r, call);
    InFlightAfterStart(s.calls, call, id, r);
    forall c | InFlight(s'.calls, c) ensures Owned(s', s'.calls[c].lane, c) {
      if c != call { assert Owned(s, s.calls[c].lane, c); }
    }
    forall c, e | InFlight(s'.calls, c) && InFlight(s'.calls, e) && s'.calls[c].lane == s'.calls[e].lane
      ensures c == e
    {
      assert Owned(s', s'.calls[c].lane, c) && Owned(s', s'.calls[e].lane, e);
    }
  }

  lemma StartKeeps(f: Flavour, s: System, id: LaneId, call: nat)
    requires Inv(f, s) && id in s.threads && s.threads[id].Calling? && call !in s.calls
    ensures Inv(f, Start(s, id, s.threads[id].report, call))
  {
    hide Registered, RegistryInv, OrderInv, CallInv;
    StartKeepsCalls(s, id, s.threads[id].report, call);
  }

  lemma InFlightAfterStart(calls: map<nat, Call>, call: nat, id: LaneId, r: Report)
    requires call !in calls
    ensures forall c :: InFlight(calls[call := Call(id, r, None)], c) <==> c == call || InFlight(calls, c)
  {
    var calls' := calls[call := Call(id, r, None)];
    forall c ensures InFlight(calls', c) <==> c == call || InFlight(calls, c) {
      if c != call && c in calls { assert calls'[c] == calls[c]; }
    }
  }

  lemma ReturnKeeps(f: Flavour, s: System, id: nat, outcome: Outcome)
    requires Inv(f, s)
    ensures Inv(f, Return(s, id, outcome))
  {
    hide PhaseOk, Registered, RegistryInv, OrderInv;
    var s' := Return(s, id, outcome);
    assert forall c :: InFlight(s'.calls, c) <==> InFlight(s.calls, c) && c != id;
    forall c | InFlight(s'.calls, c) ensures Owned(s', s'.calls[c].lane, c) {
      assert Owned(s, s.calls[c].lane, c);
    }
    assert CallInv(s');
  }

  // ---- Persisting ----------------------------------------------------------------------------

  /** Other agents are remembered as before or not at all, this one with the new report or, by the discovery dispatcher,
      with one not older. */
  lemma PersistRecords(f: Flavour, d: Dispatcher, a: Agent, r: Report, now: int)
    requires Ahead(r, d.last, a)
    ensures var d' := Persist(f, d, a, r, now);
            && d' == d.(last := d'.last, order := d'.order)
            && (forall b :: b in d'.last && b != a ==> b in d.last && d'.last[b] == d.last[b])
            && (a in d'.last ==> d'.last[a].report == r)
  {
    hide Dropped, Surplus, Without;
    var d' := Persist(f, d, a, r, now);
    if f.Discovery? && !(a in d.last && d.last[a].report.revision >= r.revision) {
      var order := if a in d.last then d.order else d.order + [a];
      assert d'.last == Remembered(f, d, d.last[a := Record(r, now)], Dropped(order, d.maximum));
    }
  }

  lemma PersistKeepsOrder(f: Flavour, d: Dispatcher, id: LaneId, r: Report, now: int)
    requires RegistryInv(d) && OrderInv(d) && Registered(d, id) && d.table[id].active == Some(r)
    ensures OrderInv(Persist(f, d, d.table[id].agent, r, now))
  {
    hide Persist;
    var a := d.table[id].agent;
    var d' := Persist(f, d, a, r, now);
    assert LaneOrdered(d.table[id], d.last);
    PersistRecords(f, d, a, r, now);
    forall i | Registered(d', i) ensures LaneOrdered(d'.table[i], d'.last) {
      assert Registered(d, i) && LaneOrdered(d.table[i], d.last);
    }
  }

  lemma PersistKeeps(f: Flavour, s: System, id: LaneId, r: Report, now: int, t: Thread)
    requires Inv(f, s) && id in s.threads
    requires (s.threads[id], t) == (Persisting(r), Clearing(r))
             || (s.threads[id], t) == (LatePersisting(r), Releasing(r))
    ensures Inv(f, PersistStep(f, s, id, r, now, t))
  {
    hide Persist, OrderInv, CallInv, ThreadInv, RegistryInv, AttendInv, Registered, LaneOrdered;
    LaneOfThread(f, s, id);
    RegisteredIsThere(s.d);
    PersistRegistered(f, s.d, id, r, now);
    PersistKeepsOrder(f, s.d, id, r, now);
    RelabelKeeps(f, s, PersistStep(f, s, id, r, now, t), id, t);
  }

  /** A goroutine that has no call moves on while the lanes stay as they are. */
  lemma RelabelKeeps(f: Flavour, s: System, s': System, id: LaneId, t: Thread)
    requires ThreadInv(s) && CallInv(s) && AttendInv(f, s) && id in s.threads && id in s.d.table
    requires !Waits(s.threads[id]) && !Waits(t) && PhaseOk(s.d.table[id], t)
    requires s'.threads == s.threads[id := t] && s'.calls == s.calls && s'.d.table == s.d.table
             && s'.d.closed == s.d.closed
    requires forall i :: Registered(s'.d, i) <==> Registered(s.d, i)
    ensures ThreadInv(s') && CallInv(s') && AttendInv(f, s')
  {
    hide PhaseOk, CallInv, Registered;
    RegisteredIsThere(s.d);
    CallsStay(s, s');
  }

  lemma PersistRegistered(f: Flavour, d: Dispatcher, id: LaneId, r: Report, now: int)
    requires RegistryInv(d) && OrderInv(d) && Registered(d, id) && d.table[id].active == Some(r)
    ensures var d' := Persist(f, d, d.table[id].agent, r, now);
            && RegistryInv(d') && d'.table == d.table && d'.closed == d.closed
            && forall i :: Registered(d', i) <==> Registered(d, i)
  {
    hide Persist, LaneOrdered;
    PersistIsAhead(d, id, r);
    PersistRecords(f, d, d.table[id].agent, r, now);
  }

  lemma PersistIsAhead(d: Dispatcher, id: LaneId, r: Report)
    requires OrderInv(d) && Registered(d, id) && d.table[id].active == Some(r)
    ensures Ahead(r, d.last, d.table[id].agent)
  {
  }

  // ---- Submitting ----------------------------------------------------------------------------

  lemma OpenRegistered(d: Dispatcher, agent: Agent)
    requires RegistryInv(d) && agent !in d.lanes && |d.lanes| < d.maximum
    ensures RegistryInv(Open(d, agent)) && d.next !in d.table
    ensures forall i :: Registered(Open(d, agent), i) <==> Registered(d, i) || i == d.next
  {
  }

  lemma OpenKeeps(f: Flavour, s: System, agent: Agent)
    requires Inv(f, s) && agent !in s.d.lanes && |s.d.lanes| < s.d.maximum
    ensures Inv(f, System(Open(s.d, agent), s.threads[s.d.next := Select], s.calls))
  {
    hide RegistryInv, Registered, CallInv, OrderInv, AttendInv;
    OpenRegistered(s.d, agent);
    var s' := System(Open(s.d, agent), s.threads[s.d.next := Select], s.calls);
    OpenKeepsLanes(f, s, agent);
    RegisteredIsThere(s.d);
    assert ThreadInv(s');
    CallsStay(s, s');
  }

  lemma RegisteredIsThere(d: Dispatcher)
    ensures forall i :: Registered(d, i) ==> i in d.table
  {
  }

  lemma OpenKeepsLanes(f: Flavour, s: System, agent: Agent)
    requires RegistryInv(s.d) && OrderInv(s.d) && AttendInv(f, s) && agent !in s.d.lanes && |s.d.lanes| < s.d.maximum
    ensures OrderInv(Open(s.d, agent)) && AttendInv(f, System(Open(s.d, agent), s.threads[s.d.next := Select], s.calls))
  {
    hide RegistryInv, LaneOrdered, Registered;
    OpenRegistered(s.d, agent);
    RegisteredIsThere(s.d);
    assert LaneOrdered(Lane(agent, None, None, false, false), s.d.last) by { NewLaneOrdered(agent, s.d.last); }
  }

  lemma NewLaneOrdered(agent: Agent, last: map<Agent, Record>)
    ensures LaneOrdered(Lane(agent, None, None, false, false), last)
  {
  }

  /** A report that a lane accepts is newer than everything the lane holds. */
  lemma AcceptedIsNewest(f: Flavour, d: Dispatcher, l: Lane, report: Report, valid: bool, now: int)
    requires LaneOrdered(l, d.last) && Screen(f, d, l.agent, report, valid, now).None?
             && Judge(f, l, report) == Accepted
    ensures LaneOrdered(l.(pending := Some(report), wake := true), d.last)
  {
  }

  lemma EnqueueRegistered(d: Dispatcher, id: LaneId, report: Report)
    requires RegistryInv(d) && id in d.table
    ensures RegistryInv(Enqueue(d, id, report))
    ensures forall i :: Registered(Enqueue(d, id, report), i) <==> Registered(d, i)
  {
  }

  lemma EnqueueKeeps(f: Flavour, s: System, id: LaneId, report: Report)
    requires Inv(f, s) && Registered(s.d, id)
    requires LaneOrdered(LaneAt(s.d, id).(pending := Some(report), wake := true), s.d.last)
    ensures Inv(f, s.(d := Enqueue(s.d, id, report)))
  {
    hide LaneOrdered, CallInv, RegistryInv, Registered;
    var s' := s.(d := Enqueue(s.d, id, report));
    RegisteredIsThere(s.d);
    EnqueueRegistered(s.d, id, report);
    CallsStay(s, s');
    assert ThreadInv(s') && OrderInv(s'.d) && AttendInv(f, s');
  }

  lemma SubmitKeeps(f: Flavour, s: System, agent: Agent, report: Report, valid: bool, now: int)
    requires Inv(f, s)
    ensures Inv(f, SubmitStep(f, s, agent, report, valid, now))
  {
    hide Inv, Screen, Judge, LaneOrdered;
    if Screen(f, s.d, agent, report, valid, now).Some? { return; }
    RoomAfterScreen(f, s.d, agent, report, valid, now);
    var ready := s;
    if agent !in s.d.lanes {
      OpenKeeps(f, s, agent);
      ready := System(Open(s.d, agent), s.threads[s.d.next := Select], s.calls);
    }
    LaneOfAgent(f, ready, agent);
    var id := ready.d.lanes[agent];
    if Judge(f, LaneAt(ready.d, id), report) == Accepted {
      AcceptedIsNewest(f, s.d, LaneAt(ready.d, id), report, valid, now);
      EnqueueKeeps(f, ready, id, report);
    }
  }

  lemma RoomAfterScreen(f: Flavour, d: Dispatcher, agent: Agent, report: Report, valid: bool, now: int)
    requires Screen(f, d, agent, report, valid, now).None?
    ensures agent in d.lanes || |d.lanes| < d.maximum
  {
  }

  lemma LaneOfAgent(f: Flavour, s: System, agent: Agent)
    requires Inv(f, s) && agent in s.d.lanes
    ensures Registered(s.d, s.d.lanes[agent]) && LaneAt(s.d, s.d.lanes[agent]).agent == agent
    ensures LaneOrdered(LaneAt(s.d, s.d.lanes[agent]), s.d.last)
  {
    hide LaneOrdered, CallInv, ThreadInv, AttendInv;
    assert Registered(s.d, s.d.lanes[agent]);
  }

  // ---- Every step keeps the invariant --------------------------------------------------------

  lemma LaneOfThread(f: Flavour, s: System, id: LaneId)
    requires Inv(f, s) && id in s.threads
    ensures Registered(s.d, id) && PhaseOk(LaneAt(s.d, id), s.threads[id]) && LaneOrdered(LaneAt(s.d, id), s.d.last)
    ensures Waits(s.threads[id]) ==> s.threads[id].call in s.calls
  {
    hide PhaseOk, LaneOrdered, AttendInv, RegistryInv;
  }

  /** The goroutine of a discovery lane ends although a report is waiting. */
  lemma StrandKeeps(s: System, id: LaneId)
    requires Inv(Discovery, s) && id in s.threads && s.threads[id] == Restarting
    ensures Inv(Discovery, End(s, id))
  {
    hide Registered, RegistryInv, OrderInv, CallInv;
    assert Stranded(End(s, id), id) by { RegisteredIsThere(s.d); }
    CallsStay(s, End(s, id));
  }

  lemma ReleaseKeeps(f: Flavour, s: System, id: LaneId)
    requires Inv(f, s) && id in s.threads && s.threads[id].Releasing?
    ensures Inv(f, Release(f, s, id))
  {
    hide Inv, LaneOrdered;
    LaneOfThread(f, s, id);
    var l := Released(LaneAt(s.d, id));
    ReleasedOrdered(LaneAt(s.d, id), s.d.last);
    if l.pending.None? {
      var s' := Go(s, id, l, Inner);
      GoKeeps(f, s, id, l, Inner);
      if ReleaseDrops(f, s.d, l) {
        UnregisterKeeps(f, s', id);
        assert s.threads[id := Inner] - {id} == s.threads[id := Restarting] - {id};
      } else {
        StopKeeps(f, s', id);
        assert s.threads[id := Inner] - {id} == s.threads[id := Restarting] - {id};
      }
    } else {
      GoKeeps(f, s, id, l, Restarting);
      if s.d.closed { StopKeeps(f, Go(s, id, l, Restarting), id); }
      else if f.Discovery? { StrandKeeps(Go(s, id, l, Restarting), id); }
    }
  }

  lemma ReleasedOrdered(l: Lane, last: map<Agent, Record>)
    requires LaneOrdered(l, last)
    ensures LaneOrdered(Released(l), last)
    ensures LaneOrdered(l.(active := None), last) && LaneOrdered(l.(wake := true), last)
            && LaneOrdered(l.(wake := false), last)
    ensures LaneOrdered(l.(quarantined := true), last)
    ensures l.active.None? ==> LaneOrdered(Take(l).0, last)
  {
  }

  lemma RetireKeeps(f: Flavour, s: System, id: LaneId)
    requires Inv(f, s) && id in s.threads && s.threads[id] == Retiring
    ensures Inv(f, Retire(s, id))
  {
    hide Inv, LaneOrdered;
    LaneOfThread(f, s, id);
    if Retires(LaneAt(s.d, id)) { UnregisterKeeps(f, s, id); } else { GoKeeps(f, s, id, LaneAt(s.d, id), Select); }
  }

  lemma ProceedKeeps(f: Flavour, s: System, id: LaneId, now: int, call: nat)
    requires Inv(f, s) && id in s.threads
    ensures Inv(f, Proceed(f, s, id, now, call))
  {
    hide Inv, LaneOrdered, Persist, Release, Retire;
    var l, t := LaneAt(s.d, id), s.threads[id];
    LaneOfThread(f, s, id);
    ReleasedOrdered(l, s.d.last);
    match t
    case Select => if l.wake { GoKeeps(f, s, id, l.(wake := false), Inner); }
    case Inner =>
      var taken := Take(l);
      GoKeeps(f, s, id, taken.0, if taken.1.Some? then Calling(taken.1.value) else Retiring);
    case Retiring => RetireKeeps(f, s, id);
    case Calling(r) => if call !in s.calls { StartKeeps(f, s, id, call); }
    case Delivering(r, c) =>
      if s.calls[c].outcome.Some? { GoKeeps(f, s, id, l, AfterResult(f, r, s.calls[c].outcome.value)); }
    case Backoff(r) => GoKeeps(f, s, id, l, Calling(r));
    case Persisting(r) => PersistKeeps(f, s, id, r, now, Clearing(r));
    case Clearing(_) => GoKeeps(f, s, id, l.(active := None), Inner);
    case Awaiting(r, c) =>
      if s.calls[c].outcome.Some? {
        GoKeeps(f, s, id, l, if s.calls[c].outcome.value.Done? then LatePersisting(r) else Releasing(r));
      }
    case LatePersisting(r) => PersistKeeps(f, s, id, r, now, Releasing(r));
    case Releasing(_) => ReleaseKeeps(f, s, id);
    case Restarting => GoKeeps(f, s, id, l.(wake := true), Select);
  }

  lemma CloseKeeps(f: Flavour, s: System)
    requires Inv(f, s)
    ensures Inv(f, s.(d := s.d.(closed := true)))
  {
    hide PhaseOk, LaneOrdered, CallInv;
    var s' := s.(d := s.d.(closed := true));
    assert forall i :: Registered(s'.d, i) <==> Registered(s.d, i);
    CallsStay(s, s');
  }

  lemma TimeOutKeeps(f: Flavour, s: System, id: LaneId)
    requires Inv(f, s)
    ensures Inv(f, TimeOut(s, id))
  {
    hide Inv, LaneOrdered;
    if id in s.threads && s.threads[id].Delivering? {
      LaneOfThread(f, s, id);
      ReleasedOrdered(LaneAt(s.d, id), s.d.last);
      GoKeeps(f, s, id, LaneAt(s.d, id).(quarantined := true), Awaiting(s.threads[id].report, s.threads[id].call));
    }
  }

  lemma StepKeepsInv(f: Flavour, s: System, a: Action)
    requires Inv(f, s)
    ensures Inv(f, Step(f, s, a))
  {
    hide Inv, Proceed, SubmitStep, TimeOut, Return;
    match a
    case SubmitReport(agent, report, valid, now) => SubmitKeeps(f, s, agent, report, valid, now);
    case Close => CloseKeeps(f, s);
    case SinkReturns(id, outcome) => ReturnKeeps(f, s, id, outcome);
    case Proceeds(id, now, call) => if id in s.threads { ProceedKeeps(f, s, id, now, call); }
    case TimesOut(id) => TimeOutKeeps(f, s, id);
    case Stops(id) => if s.d.closed { StopKeeps(f, s, id); }
  }

  lemma {:induction false} RunsKeepInv(f: Flavour, start: System, actions: seq<Action>)
    requires Inv(f, start)
    ensures Inv(f, Run(f, start, actions))
  {
    hide Step, Inv;
    if actions != [] {
      RunsKeepInv(f, start, actions[..|actions| - 1]);
      StepKeepsInv(f, Run(f, start, actions[..|actions| - 1]), actions[|actions| - 1]);
    }
  }

  lemma FreshInv(f: Flavour, maximum: nat, refresh: int)
    ensures Inv(f, Fresh(maximum, refresh))
  {
  }

  // ---- What holds in every run ---------------------------------------------------------------

  /** The agent whose report a sink call carries. */
  function AgentOf(s: System, c: nat): Agent {
    if c in s.calls then LaneAt(s.d, s.calls[c].lane).agent else ""
  }

  /** At most one sink call in flight per agent, whatever was timed out, closed, retired or restarted before. */
  lemma OneCallPerAgent(f: Flavour, maximum: nat, refresh: int, actions: seq<Action>, c: nat, e: nat)
    ensures var s := Run(f, Fresh(maximum, refresh), actions);
            InFlight(s.calls, c) && InFlight(s.calls, e) && AgentOf(s, c) == AgentOf(s, e) ==> c == e
  {
    hide Run, ThreadInv, OrderInv, RegistryInv, AttendInv;
    FreshInv(f, maximum, refresh);
    RunsKeepInv(f, Fresh(maximum, refresh), actions);
    var s := Run(f, Fresh(maximum, refresh), actions);
    if InFlight(s.calls, c) && InFlight(s.calls, e) {
      assert Owned(s, s.calls[c].lane, c) && Owned(s, s.calls[e].lane, e);
    }
  }

  /** A waiting report is strictly newer than the one being delivered, neither is older than what was persisted, and the
      number of lanes stays within its bound. */
  lemma LanesStayOrdered(f: Flavour, maximum: nat, refresh: int, actions: seq<Action>)
    ensures var d := Run(f, Fresh(maximum, refresh), actions).d;
            && |d.lanes| <= d.maximum
            && forall a :: a in d.lanes ==> d.lanes[a] in d.table && LaneOrdered(d.table[d.lanes[a]], d.last)
  {
    hide Run, LaneOrdered, CallInv, ThreadInv, AttendInv;
    FreshInv(f, maximum, refresh);
    RunsKeepInv(f, Fresh(maximum, refresh), actions);
    var d := Run(f, Fresh(maximum, refresh), actions).d;
    forall a | a in d.lanes ensures d.lanes[a] in d.table && LaneOrdered(d.table[d.lanes[a]], d.last) {
      assert Registered(d, d.lanes[a]);
    }
  }

  /** A goroutine that is bound to come to `take` for this lane, unless its sink call never returns: it is not waiting
      for a token, or the token is there. */
  predicate Attended(s: System, id: LaneId) {
    id in s.threads && (s.threads[id].Select? ==> LaneAt(s.d, id).wake)
  }

  /** In an open plugin dispatcher every waiting report is attended. */
  lemma NoPluginReportIsStranded(maximum: nat, refresh: int, actions: seq<Action>, agent: Agent)
    ensures var s := Run(Plugin, Fresh(maximum, refresh), actions);
            !s.d.closed && agent in s.d.lanes && LaneAt(s.d, s.d.lanes[agent]).pending.Some? ==>
              Attended(s, s.d.lanes[agent])
  {
    hide Run, CallInv, OrderInv;
    FreshInv(Plugin, maximum, refresh);
    RunsKeepInv(Plugin, Fresh(maximum, refresh), actions);
    var s := Run(Plugin, Fresh(maximum, refresh), actions);
    if agent in s.d.lanes { assert Registered(s.d, s.d.lanes[agent]); }
  }

  // ---- Persisted revisions never decrease ----------------------------------------------------

  lemma PersistNeverDecreases(f: Flavour, s: System, id: LaneId, r: Report, now: int, agent: Agent)
    requires OrderInv(s.d) && Registered(s.d, id) && LaneAt(s.d, id).active == Some(r)
    requires agent in s.d.last
    ensures var last := Persist(f, s.d, LaneAt(s.d, id).agent, r, now).last;
            agent in last ==> Ahead(last[agent].report, s.d.last, agent)
  {
    hide Persist;
    PersistIsAhead(s.d, id, r);
    PersistRecords(f, s.d, LaneAt(s.d, id).agent, r, now);
  }

  lemma ProceedNeverDecreases(f: Flavour, s: System, id: LaneId, now: int, call: nat, agent: Agent)
    requires Inv(f, s) && id in s.threads && agent in s.d.last
    ensures var s' := Proceed(f, s, id, now, call);
            agent in s'.d.last ==> Ahead(s'.d.last[agent].report, s.d.last, agent)
  {
    hide RegistryInv, CallInv, AttendInv, LaneOrdered, Persist;
    match s.threads[id]
    case Persisting(r) => PersistNeverDecreases(f, s, id, r, now, agent);
    case LatePersisting(r) => PersistNeverDecreases(f, s, id, r, now, agent);
    case _ =>
  }

  /** Remembered of an agent: at every step the same report or a newer one, as long as it is remembered. */
  lemma StepNeverDecreases(f: Flavour, s: System, a: Action, agent: Agent)
    requires Inv(f, s) && agent in s.d.last
    ensures var s' := Step(f, s, a);
            agent in s'.d.last ==> Ahead(s'.d.last[agent].report, s.d.last, agent)
  {
    hide Inv, Proceed, Screen, Judge;
    if a.Proceeds? && a.lane in s.threads { ProceedNeverDecreases(f, s, a.lane, a.now, a.call, agent); }
  }

  /** The agent's record is kept in every state the run goes through. */
  ghost predicate Kept(f: Flavour, start: System, actions: seq<Action>, agent: Agent) {
    && agent in Run(f, start, actions).d.last
    && (actions == [] || Kept(f, start, actions[..|actions| - 1], agent))
  }

  lemma {:induction false} PersistedNeverDecreases(f: Flavour, start: System, actions: seq<Action>, agent: Agent)
    requires Inv(f, start) && Kept(f, start, actions, agent)
    ensures agent in start.d.last
    ensures Ahead(Run(f, start, actions).d.last[agent].report, start.d.last, agent)
  {
    hide Step, Inv;
    if actions != [] {
      var front := actions[..|actions| - 1];
      PersistedNeverDecreases(f, start, front, agent);
      RunsKeepInv(f, start, front);
      StepNeverDecreases(f, Run(f, start, front), actions[|actions| - 1], agent);
    }
  }

  // ---- A waiting plugin report can always be taken -------------------------------------------

  ghost function Unused(keys: set<nat>): (c: nat)
    ensures forall k :: k in keys ==> k < c
  {
    if keys == {} then 0
    else
      var k :| k in keys;
      var c := Unused(keys - {k});
      assert forall j :: j in keys ==> j == k || j in keys - {k};
      if k < c then c else k + 1
  }

  /** A step that brings the lane closer to taking its report, with a sink call that returns well where one is waited
      for. */
  ghost function Helpful(s: System, id: LaneId): Action
    requires id in s.threads
  {
    var t := s.threads[id];
    if Waits(t) && InFlight(s.calls, t.call) then SinkReturns(t.call, Done) else Proceeds(id, 0, Unused(s.calls.Keys))
  }

  /** How far the lane is from `take`: a helpful step brings it closer, and a delivery that times out does too. */
  function Distance(s: System, id: LaneId): nat
    requires id in s.threads
  {
    match s.threads[id]
    case Inner => 0
    case Select => 1
    case Clearing(_) => 1
    case Retiring => 2
    case Persisting(_) => 2
    case Restarting => 2
    case Releasing(_) => 3
    case LatePersisting(_) => 4
    case Awaiting(_, c) => if InFlight(s.calls, c) then 6 else 5
    case Delivering(_, c) =>
      if InFlight(s.calls, c) then 7 else if c in s.calls && s.calls[c].outcome == Some(Done) then 6 else 10
    case Calling(_) => 8
    case Backoff(_) => 9
  }

  /** The lane, open and carried, with this report waiting. */
  predicate Holding(s: System, id: LaneId, r: Report) {
    !s.d.closed && id in s.threads && LaneAt(s.d, id).pending == Some(r)
  }

  lemma ReturnHelps(s: System, id: LaneId, r: Report)
    requires Inv(Plugin, s) && Holding(s, id, r) && Waits(s.threads[id]) && InFlight(s.calls, s.threads[id].call)
    ensures var s' := Return(s, s.threads[id].call, Done);
            Holding(s', id, r) && Distance(s', id) < Distance(s, id)
  {
    hide Inv;
  }

  lemma ProceedHelps(s: System, id: LaneId, r: Report, now: int, call: nat)
    requires Inv(Plugin, s) && Holding(s, id, r) && call !in s.calls && !s.threads[id].Inner?
    requires Waits(s.threads[id]) ==> !InFlight(s.calls, s.threads[id].call)
    ensures var s' := Proceed(Plugin, s, id, now, call);
            Holding(s', id, r) && Distance(s', id) < Distance(s, id)
  {
    hide Inv, Persist, LaneOrdered;
    LaneOfThread(Plugin, s, id);
    var l := LaneAt(s.d, id);
    match s.threads[id]
    case Persisting(q) => PersistKeepsLanes(Plugin, s.d, l.agent, q, now);
    case LatePersisting(q) => PersistKeepsLanes(Plugin, s.d, l.agent, q, now);
    case _ =>
  }

  lemma PersistKeepsLanes(f: Flavour, d: Dispatcher, a: Agent, r: Report, now: int)
    ensures var d' := Persist(f, d, a, r, now);
            d'.table == d.table && d'.lanes == d.lanes && d'.closed == d.closed
  {
  }

  /** From every reachable open state, some steps of the lane's own goroutine and sink call, and nothing else, take the
      waiting report. */
  lemma WaitingReportCanBeTaken(s: System, id: LaneId, r: Report)
    requires Inv(Plugin, s) && Holding(s, id, r)
    ensures exists actions :: Takes(s, actions, id, r)
    decreases Distance(s, id)
  {
    hide Inv, Run, Proceed, Return, Distance;
    var a := Helpful(s, id);
    var s' := Step(Plugin, s, a);
    if s.threads[id].Inner? {
      TakeNow(s, id, r, a);
    } else {
      StepKeepsInv(Plugin, s, a);
      if Waits(s.threads[id]) && InFlight(s.calls, s.threads[id].call) { ReturnHelps(s, id, r); }
      else { ProceedHelps(s, id, r, 0, Unused(s.calls.Keys)); }
      WaitingReportCanBeTaken(s', id, r);
      var rest :| Takes(s', rest, id, r);
      FirstStep(s, a, rest, id, r);
    }
  }

  /** The run uses only the lane's goroutine and sink calls, and ends with the report about to be delivered. */
  ghost predicate Takes(s: System, actions: seq<Action>, id: LaneId, r: Report) {
    && (forall i :: 0 <= i < |actions| ==> actions[i].SinkReturns? || (actions[i].Proceeds? && actions[i].lane == id))
    && id in Run(Plugin, s, actions).threads && Run(Plugin, s, actions).threads[id] == Calling(r)
  }

  lemma TakeNow(s: System, id: LaneId, r: Report, a: Action)
    requires Holding(s, id, r) && s.threads[id].Inner? && a.Proceeds? && a.lane == id
    ensures Takes(s, [a], id, r)
  {
    assert [a][..0] == [];
    assert Run(Plugin, s, [a]) == Step(Plugin, s, a);
  }

  lemma {:induction false} RunComposes(s: System, a: Action, rest: seq<Action>)
    ensures Run(Plugin, s, [a] + rest) == Run(Plugin, Step(Plugin, s, a), rest)
  {
    hide Step;
    var all := [a] + rest;
    if rest == [] {
      assert all[..0] == [] && all == [a];
    } else {
      RunComposes(s, a, rest[..|rest| - 1]);
      assert all[..|all| - 1] == [a] + rest[..|rest| - 1];
    }
  }

  lemma FirstStep(s: System, a: Action, rest: seq<Action>, id: LaneId, r: Report)
    requires Takes(Step(Plugin, s, a), rest, id, r) && (a.SinkReturns? || (a.Proceeds? && a.lane == id))
    ensures Takes(s, [a] + rest, id, r)
  {
    hide Step, Run;
    RunComposes(s, a, rest);
  }

  // ---- Nobody else keeps a plugin report from being taken ------------------------------------

  /** A step of the lane's own goroutine or of the sink call it waits for. */
  predicate OfLane(s: System, a: Action, id: LaneId) {
    || (a.Proceeds? && a.lane == id)
    || (a.SinkReturns? && id in s.threads && Waits(s.threads[id]) && s.threads[id].call == a.id)
  }

  /** What an agent waits for is still waiting, or a newer report of the same agent is. */
  predicate StillWaiting(s: System, id: LaneId, r: Report) {
    !s.d.closed && id in s.threads && LaneAt(s.d, id).pending.Some?
    && (LaneAt(s.d, id).pending.value == r || LaneAt(s.d, id).pending.value.revision > r.revision)
  }

  lemma SubmitDoesNotDelay(s: System, id: LaneId, r: Report, a: Action)
    requires Inv(Plugin, s) && Holding(s, id, r) && a.SubmitReport?
    ensures var s' := Step(Plugin, s, a);
            StillWaiting(s', id, r) && s'.threads[id] == s.threads[id] && s'.calls == s.calls
    ensures LaneAt(Step(Plugin, s, a).d, id).pending != Some(r) ==> a.agent == LaneAt(s.d, id).agent
  {
    hide CallInv, AttendInv, PhaseOk, LaneOrdered, Screen;
    LaneOfThread(Plugin, s, id);
  }

  lemma ProceedDoesNotDelay(s: System, id: LaneId, r: Report, other: LaneId, now: int, call: nat)
    requires Inv(Plugin, s) && Holding(s, id, r) && other in s.threads && other != id
    ensures var s' := Proceed(Plugin, s, other, now, call);
            Holding(s', id, r) && Distance(s', id) <= Distance(s, id)
  {
    hide Inv, Proceed, PhaseOk, LaneOrdered;
    LaneOfThread(Plugin, s, id);
    LaneOfThread(Plugin, s, other);
    ProceedTouchesOneLane(s, id, other, now, call);
  }

  /** A lane, its goroutine and the sink calls there were are the same after a step. */
  ghost predicate Apart(s: System, s': System, id: LaneId) {
    && s'.d.closed == s.d.closed && id in s'.threads && id in s.threads && s'.threads[id] == s.threads[id]
    && LaneAt(s'.d, id) == LaneAt(s.d, id)
    && forall c :: c in s.calls ==> c in s'.calls && s'.calls[c] == s.calls[c]
  }

  lemma GoesApart(s: System, id: LaneId, other: LaneId, l: Lane, t: Thread, a: Agent)
    requires id in s.threads && other != id
    ensures Apart(s, s, id) && Apart(s, Go(s, other, l, t), id)
    ensures Apart(s, End(Go(s, other, l, t), other), id)
    ensures Apart(s, End(Go(s, other, l, t).(d := Unregister(Go(s, other, l, t).d, a)), other), id)
    ensures Apart(s, End(s.(d := Unregister(s.d, a)), other), id)
  {
  }

  lemma ReleasesApart(s: System, id: LaneId, other: LaneId)
    requires id in s.threads && other != id
    ensures Apart(s, Release(Plugin, s, other), id) && Apart(s, Retire(s, other), id)
  {
    hide Apart, Go, End, Unregister;
    var l := LaneAt(s.d, other);
    GoesApart(s, id, other, Released(l), Restarting, Released(l).agent);
    GoesApart(s, id, other, l, Select, l.agent);
  }

  lemma StartsApart(s: System, id: LaneId, other: LaneId, r: Report, call: nat)
    requires id in s.threads && other != id && call !in s.calls
    ensures Apart(s, Start(s, other, r, call), id)
  {
  }

  lemma PersistsApart(s: System, id: LaneId, other: LaneId, r: Report, now: int, t: Thread)
    requires id in s.threads && other != id
    ensures Apart(s, PersistStep(Plugin, s, other, r, now, t), id)
  {
    hide Persist;
    PersistKeepsLanes(Plugin, s.d, LaneAt(s.d, other).agent, r, now);
  }

  lemma ProceedTouchesOneLane(s: System, id: LaneId, other: LaneId, now: int, call: nat)
    requires id in s.threads && other in s.threads && other != id
    ensures Apart(s, Proceed(Plugin, s, other, now, call), id)
  {
    hide Apart, Go, End, Unregister, Release, Retire, PersistStep, Start;
    forall l, t ensures Apart(s, Go(s, other, l, t), id) { GoesApart(s, id, other, l, t, ""); }
    GoesApart(s, id, other, LaneAt(s.d, other), Select, "");
    ReleasesApart(s, id, other);
    match s.threads[other]
    case Calling(r) => if call !in s.calls { StartsApart(s, id, other, r, call); }
    case Persisting(r) => PersistsApart(s, id, other, r, now, Clearing(r));
    case LatePersisting(r) => PersistsApart(s, id, other, r, now, Releasing(r));
    case _ =>
  }

  /** While the dispatcher is open no step of anybody else, and no timeout, takes a waiting report away, except by a
      newer one of the same agent, or moves its lane further from taking it. */
  lemma OthersDoNotDelay(s: System, a: Action, id: LaneId, r: Report)
    requires Inv(Plugin, s) && Holding(s, id, r) && !a.Close? && !OfLane(s, a, id)
    ensures var s' := Step(Plugin, s, a);
            && StillWaiting(s', id, r) && Distance(s', id) <= Distance(s, id)
            && (LaneAt(s'.d, id).pending != Some(r) ==> a.SubmitReport? && a.agent == LaneAt(s.d, id).agent)
  {
    hide Inv, Proceed, SubmitStep, PhaseOk;
    LaneOfThread(Plugin, s, id);
    match a
    case SubmitReport(_, _, _, _) => SubmitDoesNotDelay(s, id, r, a);
    case Proceeds(other, now, call) => if other in s.threads { ProceedDoesNotDelay(s, id, r, other, now, call); }
    case _ =>
  }

  /** A step that is the lane's turn: the sink call it waits for returns well, or its goroutine moves on. */
  predicate Advances(s: System, a: Action, id: LaneId) {
    id in s.threads &&
    if Waits(s.threads[id]) && InFlight(s.calls, s.threads[id].call) then a == SinkReturns(s.threads[id].call, Done)
    else a.Proceeds? && a.lane == id && a.call !in s.calls
  }

  /** A schedule of an open dispatcher: any steps of anybody else, in any order, between the lane's turns. */
  ghost predicate Fair(s: System, actions: seq<Action>, id: LaneId)
    decreases |actions|
  {
    actions == [] ||
    ((Advances(s, actions[0], id) || (!actions[0].Close? && !OfLane(s, actions[0], id)))
     && Fair(Step(Plugin, s, actions[0]), actions[1..], id))
  }

  /** How many turns the lane gets. */
  ghost function Turns(s: System, actions: seq<Action>, id: LaneId): nat
    decreases |actions|
  {
    if actions == [] then 0
    else (if Advances(s, actions[0], id) then 1 else 0) + Turns(Step(Plugin, s, actions[0]), actions[1..], id)
  }

  /** At some point of the schedule this report or a newer one has been taken. */
  ghost predicate Taken(s: System, actions: seq<Action>, id: LaneId, revision: nat)
    decreases |actions|
  {
    || (id in s.threads && s.threads[id].Calling? && s.threads[id].report.revision >= revision)
    || (actions != [] && Taken(Step(Plugin, s, actions[0]), actions[1..], id, revision))
  }

  lemma {:induction false} TakenIsOlder(s: System, actions: seq<Action>, id: LaneId, revision: nat, older: nat)
    requires Taken(s, actions, id, revision) && older <= revision
    ensures Taken(s, actions, id, older)
    decreases |actions|
  {
    hide Step;
    if actions != [] && Taken(Step(Plugin, s, actions[0]), actions[1..], id, revision) {
      TakenIsOlder(Step(Plugin, s, actions[0]), actions[1..], id, revision, older);
    }
  }

  lemma AdvanceHelps(s: System, a: Action, id: LaneId, r: Report)
    requires Inv(Plugin, s) && Holding(s, id, r) && Advances(s, a, id)
    ensures var s' := Step(Plugin, s, a);
            if s.threads[id].Inner? then id in s'.threads && s'.threads[id] == Calling(r)
            else Holding(s', id, r) && Distance(s', id) < Distance(s, id)
  {
    hide Inv, Distance, LaneOrdered;
    if !s.threads[id].Inner? {
      hide Proceed, Return;
      if Waits(s.threads[id]) && InFlight(s.calls, s.threads[id].call) { ReturnHelps(s, id, r); }
      else { ProceedHelps(s, id, r, a.now, a.call); }
    }
  }

  /** Every fair schedule takes the waiting report, or a newer one of the same agent: it does so before the lane has had
      more turns than it is away. */
  lemma {:induction false} EveryFairScheduleTakes(s: System, actions: seq<Action>, id: LaneId, r: Report)
    requires Inv(Plugin, s) && Holding(s, id, r) && Fair(s, actions, id) && Turns(s, actions, id) > Distance(s, id)
    ensures Taken(s, actions, id, r.revision)
    decreases |actions|
  {
    hide Inv, Step, Distance;
    var a := actions[0];
    var s', rest := Step(Plugin, s, a), actions[1..];
    if Advances(s, a, id) {
      AdvanceHelps(s, a, id, r);
      if !s.threads[id].Inner? {
        StepKeepsInv(Plugin, s, a);
        EveryFairScheduleTakes(s', rest, id, r);
      }
    } else {
      OthersDoNotDelay(s, a, id, r);
      StepKeepsInv(Plugin, s, a);
      var newest := LaneAt(s'.d, id).pending.value;
      EveryFairScheduleTakes(s', rest, id, newest);
      TakenIsOlder(s', rest, id, newest.revision, r.revision);
    }
  }

  // ---- Where the discovery dispatcher strands a report ---------------------------------------

  /** Exactly one step leaves an open discovery lane with a waiting report and nobody to carry it: the quarantine waiter
      releasing the lane while a report is waiting. */
  lemma StrandsExactlyWhen(s: System, a: Action, id: LaneId)
    requires Inv(Discovery, s) && !s.d.closed && !a.Close? && id in s.threads
    ensures Registered(Step(Discovery, s, a).d, id) && id !in Step(Discovery, s, a).threads
       <==> a.Proceeds? && a.lane == id && s.threads[id].Releasing? && LaneAt(s.d, id).pending.Some?
  {
    hide Inv, Screen, Judge, Persist, LaneOrdered;
    LaneOfThread(Discovery, s, id);
  }

  lemma SubmitLeavesStranded(s: System, agent: Agent, report: Report, valid: bool, now: int, id: LaneId)
    requires RegistryInv(s.d) && Registered(s.d, id) && Stranded(s, id)
    ensures var s' := SubmitStep(Discovery, s, agent, report, valid, now);
            Registered(s'.d, id) && Stranded(s', id)
  {
    hide Screen, Judge;
  }

  lemma ProceedLeavesStranded(s: System, id: LaneId, now: int, call: nat, stranded: LaneId)
    requires Inv(Discovery, s) && id in s.threads && Registered(s.d, stranded) && Stranded(s, stranded)
    ensures var s' := Proceed(Discovery, s, id, now, call);
            Registered(s'.d, stranded) && Stranded(s', stranded)
  {
    hide Inv, Persist, LaneOrdered, PhaseOk;
    LaneOfThread(Discovery, s, id);
    match s.threads[id]
    case Persisting(r) => PersistKeepsLanes(Discovery, s.d, LaneAt(s.d, id).agent, r, now);
    case LatePersisting(r) => PersistKeepsLanes(Discovery, s.d, LaneAt(s.d, id).agent, r, now);
    case _ =>
  }

  /** A stranded report stays stranded whatever happens later. */
  lemma StrandedStays(s: System, a: Action, id: LaneId)
    requires Inv(Discovery, s) && Registered(s.d, id) && Stranded(s, id)
    ensures Registered(Step(Discovery, s, a).d, id) && Stranded(Step(Discovery, s, a), id)
  {
    hide CallInv, ThreadInv, OrderInv, AttendInv, SubmitStep, Proceed;
    match a
    case SubmitReport(agent, report, valid, now) => SubmitLeavesStranded(s, agent, report, valid, now, id);
    case Proceeds(lane, now, call) => if lane in s.threads { ProceedLeavesStranded(s, lane, now, call, id); }
    case _ =>
  }

  /** A run that strands a report: a second report comes in while the first is being delivered, the delivery times out,
      and its late failure releases the lane. */
  function StrandingRun(): seq<Action> {
    [SubmitReport("a", Report(1, 1), true, 0), Proceeds(0, 0, 0), Proceeds(0, 0, 0), Proceeds(0, 0, 0),
     SubmitReport("a", Report(2, 2), true, 0), TimesOut(0), SinkReturns(0, Failed), Proceeds(0, 0, 0),
       Proceeds(0, 0, 0)]
  }

  function Solo(l: Lane): Dispatcher {
    Dispatcher(1, 0, map["a" := 0], map[0 := l], 1, map[], [], false)
  }

  function Flying(outcome: Option<Outcome>): map<nat, Call> {
    map[0 := Call(0, Report(1, 1), outcome)]
  }

  /** The states of that run. */
  function Stranding(i: nat): System {
    var first, second := Report(1, 1), Report(2, 2);
    var a, b := Some(first), Some(second);
    match i
    case 0 => Fresh(1, 0)
    case 1 => System(Solo(Lane("a", a, None, false, true)), map[0 := Select], map[])
    case 2 => System(Solo(Lane("a", a, None, false, false)), map[0 := Inner], map[])
    case 3 => System(Solo(Lane("a", None, a, false, false)), map[0 := Calling(first)], map[])
    case 4 => System(Solo(Lane("a", None, a, false, false)), map[0 := Delivering(first, 0)], Flying(None))
    case 5 => System(Solo(Lane("a", b, a, false, true)), map[0 := Delivering(first, 0)], Flying(None))
    case 6 => System(Solo(Lane("a", b, a, true, true)), map[0 := Awaiting(first, 0)], Flying(None))
    case 7 => System(Solo(Lane("a", b, a, true, true)), map[0 := Awaiting(first, 0)], Flying(Some(Failed)))
    case 8 => System(Solo(Lane("a", b, a, true, true)), map[0 := Releasing(first)], Flying(Some(Failed)))
    case _ => System(Solo(Lane("a", b, None, false, true)), map[], Flying(Some(Failed)))
  }

  lemma StrandingSubmits()
    ensures Step(Discovery, Stranding(0), StrandingRun()[0]) == Stranding(1)
    ensures Step(Discovery, Stranding(4), StrandingRun()[4]) == Stranding(5)
  {
  }

  lemma StrandingMoves(i: nat)
    requires i in {1, 2, 3, 5, 6, 7}
    ensures Step(Discovery, Stranding(i), StrandingRun()[i]) == Stranding(i + 1)
  {
    hide SubmitStep, Release, Persist, Retire;
  }

  lemma StrandingRelease()
    ensures Step(Discovery, Stranding(8), StrandingRun()[8]) == Stranding(9)
  {
    hide SubmitStep, Persist, Retire;
    assert map[0 := Restarting] - {0} == map[];
  }

  lemma StrandingStep(i: nat)
    requires i < |StrandingRun()|
    ensures Step(Discovery, Stranding(i), StrandingRun()[i]) == Stranding(i + 1)
  {
    hide Step, Stranding;
    if i == 0 || i == 4 { StrandingSubmits(); } else if i == 8 { StrandingRelease(); } else { StrandingMoves(i); }
  }

  lemma {:induction false} StrandingStates(i: nat)
    requires i <= |StrandingRun()|
    ensures Run(Discovery, Fresh(1, 0), StrandingRun()[..i]) == Stranding(i)
  {
    hide Step, StrandingRun;
    if i > 0 {
      StrandingStates(i - 1);
      StrandingStep(i - 1);
      assert StrandingRun()[..i][..i - 1] == StrandingRun()[..i - 1];
    }
  }

  /** The discovery dispatcher does strand reports: no-stranding fails there. */
  lemma DiscoveryStrandsReport()
    ensures var s := Run(Discovery, Fresh(1, 0), StrandingRun());
            !s.d.closed && Registered(s.d, 0) && Stranded(s, 0)
  {
    hide Step, Run;
    StrandingStates(|StrandingRun()|);
    assert StrandingRun()[..|StrandingRun()|] == StrandingRun();
  }
}