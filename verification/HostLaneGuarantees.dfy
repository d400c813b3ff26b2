/** What every run of a host observation lane guarantees: no accepted event is lost, capacity and the
    results channel are never exceeded, the counters balance, and retries are not forgotten. */
module HostLaneGuarantees {
  import opened Wrappers
  import opened HostLane
  import opened HostLaneRuns

  // ---- The value the lane holds for an agent -------------------------------------------------

  /** Pending if there is something pending, otherwise what is being delivered. */
  function ValueAt(l: Lane, a: string): Option<Event> {
    if a in l.pending then Some(l.pending[a].event)
    else if a in l.active then Some(l.active[a].event)
    else None
  }

  /** What is pending beside a running attempt is that attempt's event or a later one. */
  ghost predicate Ordered(l: Lane) {
    forall a :: a in l.pending && a in l.active ==>
      l.pending[a].event == Merge(l.kind, l.active[a].event, l.pending[a].event)
  }

  lemma MergeAbove(kind: Kind, base: Event, p: Event, e: Event)
    requires Fits(kind, base) && Fits(kind, p) && Fits(kind, e)
    ensures Merge(kind, base, base) == base
    ensures Merge(kind, base, Merge(kind, base, e)) == Merge(kind, base, e)
    ensures p == Merge(kind, base, p) ==> Merge(kind, p, e) == Merge(kind, base, Merge(kind, p, e))
  {
    hide Rank, Fits;
  }

  lemma SubmitValue(l: Lane, e: Event)
    requires EntriesInv(l) && Ordered(l) && Fits(l.kind, e)
    ensures var (l', outcome) := Submit(l, e);
            && Ordered(l')
            && (outcome != Accepted ==> forall a :: ValueAt(l', a) == ValueAt(l, a))
            && (outcome == Accepted ==> forall a ::
                  ValueAt(l', a) == if a != e.agent then ValueAt(l, a)
                                    else if ValueAt(l, a).Some? then Some(Merge(l.kind, ValueAt(l, a).value, e))
                                    else Some(e))
  {
    hide Occupancy, Push, Merge, Fits;
    CoalescedFits(l, e);
    if e.agent in l.active {
      MergeAbove(l.kind, l.active[e.agent].event, if e.agent in l.pending then l.pending[e.agent].event else e, e);
    }
  }

  lemma NextValue(l: Lane, now: int, later: int)
    requires QueueInv(l) && Ordered(l)
    ensures Ordered(Next(l, now, later).0)
    ensures forall a :: ValueAt(Next(l, now, later).0, a) == ValueAt(l, a)
  {
    hide Kept, Earliest, Lists, Merge, Due, Ready;
    if !l.aborted {
      NextRotates(l, now, later);
      ScanSelects(l, now);
    }
  }

  lemma TimeoutValue(l: Lane, e: Event, now: int)
    requires EntriesInv(l) && Ordered(l) && (e.agent in l.active ==> l.active[e.agent].event == e)
    ensures Ordered(Timeout(l, e, now))
    ensures forall a :: ValueAt(Timeout(l, e, now), a) == ValueAt(l, a)
  {
    hide Merge, Fits;
    if e.agent in l.active {
      MergeAbove(l.kind, e, e, e);
      LeftoverFits(l, e);
    }
  }

  lemma CompleteValue(l: Lane, agent: string, ok: bool, now: int)
    requires EntriesInv(l) && Ordered(l)
    ensures Ordered(Complete(l, agent, ok, now))
    ensures forall a :: ValueAt(Complete(l, agent, ok, now), a) ==
                        if a == agent && Ends(l, agent, ok) then None else ValueAt(l, a)
  {
    hide Merge, Fits, Push, StatsAfter;
    if !l.aborted && agent in l.active {
      LeftoverIsValue(l, agent);
    }
  }

  lemma LeftoverIsValue(l: Lane, agent: string)
    requires EntriesInv(l) && Ordered(l) && agent in l.active
    ensures Some(Leftover(l, agent, l.active[agent].event)) == ValueAt(l, agent)
  {
    hide Merge;
  }

  // ---- No accepted event is lost -------------------------------------------------------------

  function LatestOf(kind: Kind, stay: map<string, seq<Event>>, a: string): Option<Event> {
    if a in stay && stay[a] != [] then Some(Latest(kind, stay[a])) else None
  }

  ghost predicate StaysFit(kind: Kind, stay: map<string, seq<Event>>) {
    forall a :: a in stay ==> stay[a] != [] && forall i :: 0 <= i < |stay[a]| ==> Fits(kind, stay[a][i])
  }

  /** For every agent the lane holds exactly the merge of everything accepted in its current stay. */
  ghost predicate StayInv(s: System) {
    && Ordered(s.lane)
    && StaysFit(s.lane.kind, s.stay)
    && forall a :: ValueAt(s.lane, a) == LatestOf(s.lane.kind, s.stay, a)
  }

  lemma ExtendedLatest(kind: Kind, stay: map<string, seq<Event>>, e: Event)
    requires StaysFit(kind, stay) && Fits(kind, e)
    ensures StaysFit(kind, Extended(stay, e))
    ensures forall a :: LatestOf(kind, Extended(stay, e), a) ==
                        if a != e.agent then LatestOf(kind, stay, a)
                        else if LatestOf(kind, stay, a).Some? then Some(Merge(kind, LatestOf(kind, stay, a).value, e))
                        else Some(e)
  {
    hide Merge, Fits;
    var stay' := Extended(stay, e);
    if e.agent in stay {
      assert stay'[e.agent][..|stay[e.agent]|] == stay[e.agent];
    }
  }

  lemma SubmitKeepsStays(s: System, e: Event)
    requires StayInv(s) && EntriesInv(s.lane)
    ensures StayInv(DoSubmit(s, e))
  {
    hide EntriesInv, Merge, Fits, Ordered, StaysFit, ValueAt, LatestOf, Extended;
    if Fits(s.lane.kind, e) {
      SubmitValue(s.lane, e);
      SubmitKeepsKind(s.lane, e);
      ExtendedLatest(s.lane.kind, s.stay, e);
      hide Submit;
    }
  }

  lemma SubmitKeepsKind(l: Lane, e: Event)
    ensures Submit(l, e).0.kind == l.kind
  {
    hide Occupancy, Push, Coalesced;
  }

  lemma ReceiveKeepsStays(s: System, agent: string, now: int)
    requires StayInv(s) && EntriesInv(s.lane)
    ensures StayInv(DoReceive(s, agent, now))
  {
    hide EntriesInv, Merge, Fits, Ordered, ValueAt, Latest, PendingAfter, StatsAfter, Push;
    if CanReceive(s, agent) {
      CompleteValue(s.lane, agent, s.flights[agent].outcome.value, now);
    }
  }

  lemma AbortKeepsStays(s: System, worker: Worker)
    requires StayInv(s) && EntriesInv(s.lane)
    ensures StayInv(DoAbort(s, worker))
  {
    hide Occupancy, Merge, Fits;
  }

  lemma StepKeepsStays(s: System, action: Action)
    requires StayInv(s) && QueueInv(s.lane) && AttemptInv(s)
    ensures StayInv(Step(s, action))
  {
    hide EntriesInv, Lists, LatestOf, StaysFit, Next, Timeout, Merge, Fits;
    match action
    case Submitted(e) => SubmitKeepsStays(s, e);
    case WorkerScans(now, later) => NextValue(s.lane, now, later); NextKeepsKind(s.lane, now, later);
    case WorkerReceives(agent, now) => ReceiveKeepsStays(s, agent, now);
    case DeliveryTimesOut(now) =>
      if s.worker.Delivering? {
        AbortedIsEmpty(s.lane);
        TimeoutValue(s.lane, s.worker.event, now); TimeoutKeepsKind(s.lane, s.worker.event, now);
      }
    case ClosingAborts => AbortKeepsStays(s, s.worker);
    case WorkerAborts => AbortKeepsStays(s, Gone);
    case _ =>
  }

  lemma AbortedIsEmpty(l: Lane)
    requires EntriesInv(l)
    ensures l.aborted ==> l.pending == map[] && l.active == map[]
  {
  }

  lemma NextKeepsKind(l: Lane, now: int, later: int)
    ensures Next(l, now, later).0.kind == l.kind && Next(l, now, later).0.maximumPending == l.maximumPending
  {
    hide Kept, Earliest;
  }

  lemma TimeoutKeepsKind(l: Lane, e: Event, now: int)
    ensures Timeout(l, e, now).kind == l.kind && Timeout(l, e, now).maximumPending == l.maximumPending
  {
  }

  /** An agent leaves the lane in one of two ways.  Unless the lane is aborted, a sink call that was made
      with the latest event of the stay succeeded without having timed out. */
  lemma AgentsLeaveByDelivery(s: System, action: Action, a: string)
    requires QueueInv(s.lane) && CallInv(s) && StayInv(s)
    requires ValueAt(s.lane, a).Some? && ValueAt(Step(s, action).lane, a).None?
    ensures action == ClosingAborts || action == WorkerAborts || action.WorkerReceives?
    ensures action.WorkerReceives? ==>
              && action.agent == a && CanReceive(s, a) && s.flights[a].outcome == Some(true)
              && a in s.lane.active && !s.lane.active[a].timedOut
              && a in s.stay && s.stay[a] != [] && s.flights[a].event == Latest(s.lane.kind, s.stay[a])
  {
    hide EntriesInv, Lists, Next, Timeout, Merge, Fits, Latest;
    match action
    case Submitted(e) =>
      hide Submit, ValueAt;
      if Fits(s.lane.kind, e) { SubmitValue(s.lane, e); }
    case WorkerScans(now, later) => NextValue(s.lane, now, later);
    case WorkerReceives(agent, now) =>
      hide Complete;
      if CanReceive(s, agent) { CompleteValue(s.lane, agent, s.flights[agent].outcome.value, now); }
    case DeliveryTimesOut(now) =>
      if s.worker.Delivering? { AbortedIsEmpty(s.lane); TimeoutValue(s.lane, s.worker.event, now); }
    case _ =>
  }

  // ---- Places and the results channel --------------------------------------------------------

  ghost predicate RoomInv(s: System) {
    && Occupancy(s.lane.pending, s.lane.active) <= s.lane.maximumPending
    && Size(Busy(s)) <= s.lane.maximumPending
  }

  lemma SizeSubset(small: set<string>, large: set<string>)
    requires small <= large
    ensures Size(small) <= Size(large)
    ensures small != large ==> Size(small) < Size(large)
    decreases large
  {
    assert large == small + (large - small);
  }

  /** A sink call that returns always finds a free slot in the results channel, even after an abort. */
  lemma ResultsNeverBlock(s: System, agent: string)
    requires RoomInv(s) && agent in s.flights && s.flights[agent].outcome.None?
    ensures CanSend(s, agent)
  {
    hide Size, Occupancy;
    var returned := Returned(s.flights);
    assert agent !in returned && agent in Busy(s);
    SizeSubset(returned, Busy(s));
    SizeIs(returned);
  }

  lemma SizeIs(agents: set<string>)
    ensures Size(agents) == |agents|
  {
  }

  /** The agent ID is enough to recognise the result: while the worker delivers, the one outstanding call
      for that agent is the one it started, made with the event it is delivering. */
  lemma MatchingResultIsThisAttempt(s: System)
    requires CallInv(s) && s.worker.Delivering?
    ensures var a := s.worker.event.agent;
            a in s.flights && s.flights[a] == Flight(s.worker.call, s.worker.event, s.flights[a].outcome)
    ensures !s.lane.aborted ==> s.flights.Keys == s.lane.active.Keys
  {
    if !s.lane.aborted { assert Busy(s) == s.flights.Keys; }
  }

  lemma BusyWhenLaunching(s: System)
    requires CallInv(s) && !s.lane.aborted && Occupancy(s.lane.pending, s.lane.active) <= s.lane.maximumPending
    ensures Size(Busy(s)) <= s.lane.maximumPending
  {
    hide Size;
    SizeSubset(s.lane.active.Keys, s.lane.pending.Keys + s.lane.active.Keys);
  }

  lemma StepKeepsRoom(s: System, action: Action)
    requires QueueInv(s.lane) && CallInv(s) && RoomInv(s)
    ensures RoomInv(Step(s, action))
  {
    hide Lists, EntriesInv, Occupancy, Size, Busy, Next, Submit, Timeout, Complete, CallInv;
    var s' := Step(s, action);
    match action
    case Submitted(e) =>
      if Fits(s.lane.kind, e) { SubmitRoom(s, e); }
    case WorkerScans(now, later) =>
      NextOccupancy(s.lane, now, later); NextKeepsKind(s.lane, now, later);
      ScanKeepsCalls(s, now, later);
      if s'.worker.Launching? && s.worker == Scanning { LaunchingIsLive(s, now, later); BusyWhenLaunching(s'); }
      else { assert Busy(s') == Busy(s); }
    case WorkerLaunches => LaunchKeepsCalls(s);
    case SinkReturns(agent, ok) => ReturnKeepsCalls(s, agent, ok);
    case WorkerReceives(agent, now) =>
      ReceiveKeepsCalls(s, agent, now); SizeSubset(Busy(s'), Busy(s));
      if CanReceive(s, agent) {
        CompleteOccupancy(s.lane, agent, s.flights[agent].outcome.value, now);
        CompleteKeepsKind(s.lane, agent, s.flights[agent].outcome.value, now);
      }
    case DeliveryTimesOut(now) =>
      TimeoutKeepsCalls(s, now);
      if s.worker.Delivering? { TimeoutRoom(s, now); }
    case ClosingAborts => AbortRoom(s, s.worker);
    case WorkerAborts => AbortRoom(s, Gone);
    case _ => BusyIgnoresLane(s, s');
  }

  lemma BusyIgnoresLane(s: System, s': System)
    ensures s'.flights == s.flights && Starting(s') == Starting(s) ==> Busy(s') == Busy(s)
  {
  }

  lemma SubmitRoom(s: System, e: Event)
    requires QueueInv(s.lane) && RoomInv(s) && Fits(s.lane.kind, e)
    ensures RoomInv(DoSubmit(s, e))
  {
    hide Lists, EntriesInv, Occupancy, Size, Push, Coalesced;
    SubmitOccupancy(s.lane, e);
    SubmitKeepsKind(s.lane, e);
  }

  lemma LaunchingIsLive(s: System, now: int, later: int)
    requires s.worker == Scanning && DoScan(s, now, later).worker.Launching?
    ensures !s.lane.aborted && !DoScan(s, now, later).lane.aborted
  {
    hide Kept, Earliest;
  }

  lemma CompleteKeepsKind(l: Lane, agent: string, ok: bool, now: int)
    ensures Complete(l, agent, ok, now).kind == l.kind && Complete(l, agent, ok, now).maximumPending == l.maximumPending
  {
  }

  lemma TimeoutRoom(s: System, now: int)
    requires QueueInv(s.lane) && CallInv(s) && RoomInv(s) && s.worker.Delivering?
    ensures Occupancy(DoTimeout(s, now).lane.pending, DoTimeout(s, now).lane.active) <= s.lane.maximumPending
    ensures DoTimeout(s, now).lane.maximumPending == s.lane.maximumPending
  {
    hide Lists, Occupancy, Size, Timeout;
    TimeoutKeepsKind(s.lane, s.worker.event, now);
    if s.lane.aborted {
      TimeoutAborted(s.lane, s.worker.event, now);
    } else {
      TimeoutOccupancy(s.lane, s.worker.event, now);
    }
  }

  lemma TimeoutAborted(l: Lane, e: Event, now: int)
    requires l.aborted
    ensures Timeout(l, e, now) == l
  {
  }

  lemma AbortRoom(s: System, worker: Worker)
    requires CallInv(s) && RoomInv(s) && (worker == s.worker || worker == Gone)
    ensures RoomInv(DoAbort(s, worker))
  {
    hide Size, Busy, CallInv, Occupancy;
    AbortKeepsCalls(s, worker);
    SizeSubset(Busy(DoAbort(s, worker)), Busy(s));
    EmptyOccupancy();
  }

  // ---- The counters --------------------------------------------------------------------------

  /** Agents with an attempt that has not timed out. */
  function Live(active: map<string, Attempt>): set<string> {
    set a | a in active && !active[a].timedOut
  }

  function Load(l: Lane): nat {
    Size(l.pending.Keys) + Size(Live(l.active))
  }

  ghost predicate Balanced(l: Lane, ended: nat) {
    && l.stats.accepted == l.stats.coalesced + ended + Occupancy(l.pending, l.active) + l.stats.discarded
    && l.stats.failed == l.stats.retried
  }

  ghost predicate AccountInv(s: System) {
    && Balanced(s.lane, s.ended)
    && s.lane.stats.accepted >= s.lane.stats.delivered + Load(s.lane)
  }

  lemma SubmitBalances(l: Lane, e: Event, ended: nat)
    requires EntriesInv(l) && Fits(l.kind, e) && Balanced(l, ended)
    ensures Balanced(Submit(l, e).0, ended)
  {
    hide Occupancy, EntriesInv, Push, Coalesced;
    SubmitOccupancy(l, e);
  }

  lemma SubmitLoad(l: Lane, e: Event)
    requires EntriesInv(l) && Fits(l.kind, e)
    ensures var (l', outcome) := Submit(l, e);
            && l'.stats.delivered == l.stats.delivered
            && l'.stats.accepted - Load(l') >= l.stats.accepted - Load(l)
  {
    hide Occupancy, EntriesInv, Push, Coalesced, Size, Live, Fits;
    CoalescedFits(l, e);
    SizeAdd(l.pending.Keys, e.agent);
    assert l.pending[e.agent := Pending(Coalesced(l, e), None)].Keys == l.pending.Keys + {e.agent};
  }

  lemma NextLoad(l: Lane, now: int, later: int)
    requires QueueInv(l)
    ensures var l' := Next(l, now, later).0;
            l'.stats == l.stats && Load(l') == Load(l)
  {
    hide Kept, Earliest, Lists, EntriesInv, Due, Ready, Size, Live;
    if !l.aborted {
      NextRotates(l, now, later);
      ScanSelects(l, now);
      var i := FirstDue(l, l.queue, now);
      if i < |l.queue| {
        SizeAdd(l.pending.Keys, l.queue[i]);
        assert (l.pending - {l.queue[i]}).Keys == l.pending.Keys - {l.queue[i]};
        LiveAdd(l.active, l.queue[i], Attempt(l.pending[l.queue[i]].event, false));
      }
    }
  }

  lemma LiveAdd(active: map<string, Attempt>, a: string, attempt: Attempt)
    ensures a !in active && !attempt.timedOut ==> Size(Live(active[a := attempt])) == Size(Live(active)) + 1
    ensures a in active && !active[a].timedOut && attempt.timedOut ==>
              Size(Live(active[a := attempt])) == Size(Live(active)) - 1
    ensures a in active ==> Size(Live(active - {a})) == Size(Live(active)) - (if active[a].timedOut then 0 else 1)
  {
    hide Size;
    SizeAdd(Live(active), a);
    if a !in active && !attempt.timedOut { assert Live(active[a := attempt]) == Live(active) + {a}; }
    if a in active && attempt.timedOut { assert Live(active[a := attempt]) == Live(active) - {a}; }
    if a in active { assert Live(active - {a}) == Live(active) - {a}; }
  }

  lemma TimeoutLoad(l: Lane, e: Event, now: int)
    requires EntriesInv(l) && (e.agent in l.active ==> Fits(l.kind, e))
    ensures var l' := Timeout(l, e, now);
            && l'.stats.accepted == l.stats.accepted && l'.stats.delivered == l.stats.delivered
            && Load(l') <= Load(l)
  {
    hide EntriesInv, Leftover, Size, Live, Fits;
    if e.agent in l.active {
      LeftoverFits(l, e);
      SizeAdd(l.pending.Keys, e.agent);
      assert l.pending[e.agent := Pending(Leftover(l, e.agent, e), Some(now + l.retryBackoff))].Keys ==
             l.pending.Keys + {e.agent};
      LiveAdd(l.active, e.agent, l.active[e.agent].(timedOut := true));
    }
  }

  lemma TimeoutBalances(l: Lane, e: Event, now: int, ended: nat)
    requires EntriesInv(l) && Balanced(l, ended) && (e.agent in l.active ==> Fits(l.kind, e))
    ensures Balanced(Timeout(l, e, now), ended)
  {
    hide Occupancy, EntriesInv, Leftover;
    if e.agent in l.active { TimeoutOccupancy(l, e, now); }
  }

  lemma CompleteLoad(l: Lane, agent: string, ok: bool, now: int)
    ensures var l' := Complete(l, agent, ok, now);
            && l'.stats.accepted == l.stats.accepted
            && l'.stats.delivered + Load(l') <= l.stats.delivered + Load(l)
  {
    hide Leftover, Size, Live, Push;
    if !l.aborted && agent in l.active {
      SizeAdd(l.pending.Keys, agent);
      assert l.pending[agent := Pending(Leftover(l, agent, l.active[agent].event), Some(now + l.retryBackoff))].Keys
          == l.pending.Keys + {agent};
      LiveAdd(l.active, agent, l.active[agent]);
    }
  }

  lemma CompleteBalances(l: Lane, agent: string, ok: bool, now: int, ended: nat)
    requires EntriesInv(l) && Balanced(l, ended)
    ensures Balanced(Complete(l, agent, ok, now), if Ends(l, agent, ok) then ended + 1 else ended)
  {
    hide Occupancy, EntriesInv, PendingAfter, Push;
    CompleteOccupancy(l, agent, ok, now);
  }

  lemma AbortAccounts(l: Lane, ended: nat)
    requires Balanced(l, ended) && l.stats.accepted >= l.stats.delivered + Load(l)
    ensures Balanced(Abort(l), ended)
    ensures Abort(l).stats.accepted >= Abort(l).stats.delivered + Load(Abort(l))
  {
    hide Occupancy;
    EmptyOccupancy();
    assert Live(map[]) == {};
  }

  lemma AttemptFits(s: System)
    requires EntriesInv(s.lane) && AttemptInv(s)
    ensures s.worker.Delivering? && s.worker.event.agent in s.lane.active ==> Fits(s.lane.kind, s.worker.event)
  {
    hide Fits;
  }

  lemma StepKeepsAccounts(s: System, action: Action)
    requires QueueInv(s.lane) && AttemptInv(s) && AccountInv(s)
    ensures AccountInv(Step(s, action))
  {
    hide Lists, EntriesInv, Occupancy, Size, Next, Submit, Timeout, Complete, Abort, Live, Load, Balanced, AttemptInv;
    match action
    case Submitted(e) =>
      if Fits(s.lane.kind, e) { SubmitBalances(s.lane, e, s.ended); SubmitLoad(s.lane, e); }
    case WorkerScans(now, later) => NextAccounts(s.lane, now, later, s.ended);
    case WorkerReceives(agent, now) =>
      if CanReceive(s, agent) {
        CompleteLoad(s.lane, agent, s.flights[agent].outcome.value, now);
        CompleteBalances(s.lane, agent, s.flights[agent].outcome.value, now, s.ended);
      }
    case DeliveryTimesOut(now) =>
      AttemptFits(s);
      if s.worker.Delivering? {
        TimeoutLoad(s.lane, s.worker.event, now); TimeoutBalances(s.lane, s.worker.event, now, s.ended);
      }
    case ClosingAborts => AbortAccounts(s.lane, s.ended);
    case WorkerAborts => AbortAccounts(s.lane, s.ended);
    case _ => LoadIgnoresFlags(s.lane, Step(s, action).lane, s.ended);
  }

  lemma LoadIgnoresFlags(l: Lane, l': Lane, ended: nat)
    ensures l'.pending == l.pending && l'.active == l.active && l'.stats == l.stats
            ==> Load(l') == Load(l) && (Balanced(l, ended) ==> Balanced(l', ended))
  {
    hide Occupancy, Size, Live;
  }

  lemma NextAccounts(l: Lane, now: int, later: int, ended: nat)
    requires QueueInv(l) && Balanced(l, ended)
    ensures Balanced(Next(l, now, later).0, ended)
    ensures var l' := Next(l, now, later).0; l'.stats == l.stats && Load(l') == Load(l)
  {
    hide QueueInv, Occupancy, Load, Next;
    NextLoad(l, now, later);
    NextOccupancy(l, now, later);
  }

  // ---- Every run -----------------------------------------------------------------------------

  ghost predicate Inv(s: System) {
    QueueInv(s.lane) && CallInv(s) && StayInv(s) && RoomInv(s) && AccountInv(s)
  }

  lemma StepKeepsQueue(s: System, action: Action)
    requires QueueInv(s.lane) && AttemptInv(s)
    ensures QueueInv(Step(s, action).lane)
  {
    hide Lists, Next, Submit, Timeout, Complete, Occupancy, EntriesInv, AttemptInv;
    match action
    case Submitted(e) => if Fits(s.lane.kind, e) { SubmitKeepsQueue(s.lane, e); }
    case WorkerScans(now, later) => NextKeepsQueue(s.lane, now, later);
    case WorkerReceives(agent, now) =>
      if CanReceive(s, agent) { CompleteKeepsQueue(s.lane, agent, s.flights[agent].outcome.value, now); }
    case DeliveryTimesOut(now) =>
      if s.worker.Delivering? { TimeoutQueue(s, now); }
    case ClosingAborts => AbortKeepsQueue(s.lane);
    case WorkerAborts => AbortKeepsQueue(s.lane);
    case _ => EntriesIgnoreFlags(s.lane, Step(s, action).lane);
  }

  lemma TimeoutQueue(s: System, now: int)
    requires QueueInv(s.lane) && AttemptInv(s) && s.worker.Delivering?
    ensures QueueInv(Timeout(s.lane, s.worker.event, now))
  {
    hide QueueInv, Timeout, Fits;
    if s.lane.aborted { TimeoutAborted(s.lane, s.worker.event, now); }
    else { LiveAttemptFits(s); TimeoutKeepsQueue(s.lane, s.worker.event, now); }
  }

  lemma LiveAttemptFits(s: System)
    requires QueueInv(s.lane) && AttemptInv(s) && s.worker.Delivering? && !s.lane.aborted
    ensures Fits(s.lane.kind, s.worker.event)
  {
    hide Fits, Lists;
  }

  lemma AbortKeepsQueue(l: Lane)
    requires QueueInv(l)
    ensures QueueInv(Abort(l))
  {
    hide Occupancy;
    assert Abort(l).pending.Keys - Abort(l).active.Keys == if l.aborted then l.pending.Keys - l.active.Keys else {};
  }

  lemma EntriesIgnoreFlags(l: Lane, l': Lane)
    requires EntriesInv(l)
    ensures l' == l || l' == BeginClose(l) || l' == l.(wake := false) ==> EntriesInv(l')
  {
    hide Fits;
  }

  lemma StepKeepsCalls(s: System, action: Action)
    requires QueueInv(s.lane) && CallInv(s)
    ensures CallInv(Step(s, action))
  {
    hide QueueInv, Next, Timeout, Complete, Occupancy, CallInv;
    match action
    case Submitted(e) => SubmitCalls(s, e);
    case WorkerScans(now, later) => ScanKeepsCalls(s, now, later);
    case WorkerLaunches => LaunchKeepsCalls(s);
    case SinkReturns(agent, ok) => ReturnKeepsCalls(s, agent, ok);
    case WorkerReceives(agent, now) => ReceiveKeepsCalls(s, agent, now);
    case DeliveryTimesOut(now) => TimeoutKeepsCalls(s, now);
    case ClosingAborts => AbortKeepsCalls(s, s.worker);
    case WorkerAborts => if s.worker.Aborting? { AbortKeepsCalls(s, Gone); }
    case _ => CallsIgnoreFlags(s, Step(s, action));
  }

  lemma SubmitCalls(s: System, e: Event)
    requires CallInv(s)
    ensures CallInv(DoSubmit(s, e))
  {
    hide Occupancy, Push, Coalesced, Extended;
    assert Busy(DoSubmit(s, e)) == Busy(s);
  }

  lemma CallsIgnoreFlags(s: System, s': System)
    requires CallInv(s)
    ensures && s'.flights == s.flights && s'.clash == s.clash && s'.lane.active == s.lane.active
            && s'.lane.aborted == s.lane.aborted
            && (|| s'.worker == s.worker || (!s.worker.Launching? && !s'.worker.Launching? && !s'.worker.Delivering?)
                || (s.worker.Delivering? && s'.worker == s.worker.(late := true)))
            ==> CallInv(s')
  {
    if s'.flights == s.flights && (s'.worker == s.worker || (!s.worker.Launching? && !s'.worker.Launching?)) {
      assert Busy(s') == Busy(s);
    }
  }

  lemma StepKeepsInv(s: System, action: Action)
    requires Inv(s)
    ensures Inv(Step(s, action))
  {
    hide QueueInv, CallInv, StayInv, RoomInv, AccountInv, Step;
    CallsGiveAttempt(s);
    StepKeepsQueue(s, action);
    StepKeepsCalls(s, action);
    StepKeepsStays(s, action);
    StepKeepsRoom(s, action);
    StepKeepsAccounts(s, action);
  }

  lemma CallsGiveAttempt(s: System)
    requires CallInv(s)
    ensures AttemptInv(s)
  {
  }

  lemma FreshInv(kind: Kind, maximumPending: nat, retryBackoff: nat)
    ensures Inv(Fresh(kind, maximumPending, retryBackoff))
  {
    var s := Fresh(kind, maximumPending, retryBackoff);
    EmptyOccupancy();
    assert Busy(s) == {} && Live(map[]) == {};
  }

  lemma {:induction false} RunsKeepInv(s: System, actions: seq<Action>)
    requires Inv(s)
    ensures Inv(Run(s, actions))
  {
    hide Inv, Step;
    if actions != [] {
      RunsKeepInv(s, actions[..|actions|-1]);
      StepKeepsInv(Run(s, actions[..|actions|-1]), actions[|actions|-1]);
    }
  }

  /** In every run, what the lane holds for an agent is the event of highest rank accepted in the agent's
      current stay (the first such event if several tie), and from there a step can end the stay only by
      an abort or by a successful sink call, not timed out, that was made with that very event. */
  lemma NoAcceptedEventIsLost(start: System, actions: seq<Action>, action: Action, a: string)
    requires Inv(start)
    ensures var s := Run(start, actions);
            && (ValueAt(s.lane, a).Some? <==> a in s.stay)
            && (a in s.stay ==> IsFirstMaximum(s.lane.kind, s.stay[a], ValueAt(s.lane, a).value))
    ensures var s := Run(start, actions);
            a in s.stay && ValueAt(Step(s, action).lane, a).None? && action != ClosingAborts
              && action != WorkerAborts ==>
              && action.WorkerReceives? && action.agent == a && a in s.flights && s.flights[a].outcome == Some(true)
              && a in s.lane.active && !s.lane.active[a].timedOut
              && Some(s.flights[a].event) == ValueAt(s.lane, a)
  {
    hide Step, Run, QueueInv, CallInv, RoomInv, AccountInv, Ordered, IsFirstMaximum, ValueAt, Fits;
    RunsKeepInv(start, actions);
    var s := Run(start, actions);
    if a in s.stay {
      LatestIsFirstMaximum(s.lane.kind, s.stay[a]);
      if ValueAt(Step(s, action).lane, a).None? {
        AgentsLeaveByDelivery(s, action, a);
      }
    }
  }

  /** In every run the lane and the results channel stay within the configured maximum, no agent has two sink
      calls, and every result can be sent at once. */
  lemma EveryRunStaysInBounds(start: System, actions: seq<Action>, a: string)
    requires Inv(start)
    ensures var s := Run(start, actions);
            && Occupancy(s.lane.pending, s.lane.active) <= s.lane.maximumPending
            && !s.clash
            && (a in s.flights && s.flights[a].outcome.None? ==> CanSend(s, a))
            && (!s.lane.aborted && a in s.lane.active && !s.worker.Launching? ==> a in s.flights)
  {
    hide Step, Run, QueueInv, StayInv, AccountInv, Occupancy, Size, CanSend;
    RunsKeepInv(start, actions);
    var s := Run(start, actions);
    if a in s.flights && s.flights[a].outcome.None? { ResultsNeverBlock(s, a); }
    if !s.lane.aborted && a in s.lane.active && !s.worker.Launching? { assert a in Busy(s); }
  }

  /** In every run an accepting lane with a place for the agent accepts every event that fits it: the event is counted,
      it joins the agent's stay, and is due at once unless the agent is being delivered. */
  lemma OpenLaneAccepts(start: System, actions: seq<Action>, e: Event)
    requires Inv(start) && Fits(Run(start, actions).lane.kind, e)
    requires Accepting(Run(start, actions).lane) && HasPlace(Run(start, actions).lane, e.agent)
    ensures var s := Run(start, actions);
            var s' := Step(s, Submitted(e));
            && s'.lane.stats.accepted == s.lane.stats.accepted + 1
            && e.agent in s'.lane.pending && e.agent in s'.stay
            && s'.stay[e.agent] == (if e.agent in s.stay then s.stay[e.agent] else []) + [e]
            && (e.agent !in s.lane.active ==> forall now :: Due(s'.lane, e.agent, now))
  {
    hide Run, CallInv, StayInv, RoomInv, AccountInv, QueueInv, Due;
    RunsKeepInv(start, actions);
    var s := Run(start, actions);
    SubmitIsExact(s.lane, e);
    AcceptedCounts(s.lane, e);
  }

  lemma AcceptedCounts(l: Lane, e: Event)
    requires Submit(l, e).1 == Accepted
    ensures Submit(l, e).0.stats.accepted == l.stats.accepted + 1
  {
  }

  /** A lane stops accepting only when it is closed or aborted. */
  lemma AcceptsUntilClosed(s: System, action: Action)
    requires Accepting(s.lane) && !Accepting(Step(s, action).lane)
    ensures action in {Closing, ClosingAborts, WorkerAborts}
  {
    hide Merge, FirstDue, Kept, Earliest, Occupancy, Push, Coalesced, Leftover;
  }

  /** In every run the counters balance. */
  lemma EveryRunBalances(start: System, actions: seq<Action>)
    requires Inv(start)
    ensures var s := Run(start, actions);
            && s.lane.stats.accepted - s.lane.stats.coalesced ==
               s.ended + Occupancy(s.lane.pending, s.lane.active) + s.lane.stats.discarded
            && s.lane.stats.accepted >= s.lane.stats.delivered + Load(s.lane)
            && s.lane.stats.failed == s.lane.stats.retried
  {
    hide Step, Run, QueueInv, CallInv, StayInv, RoomInv, Load, Occupancy;
    RunsKeepInv(start, actions);
  }

  /** What the counters count. */
  datatype Mark = IsAccepted | IsRefused | IsDelivered | IsFailed

  /** The result of an attempt that did not time out is received. */
  predicate ReceivesInTime(s: System, action: Action) {
    && action.WorkerReceives? && CanReceive(s, action.agent) && !s.lane.aborted
    && action.agent in s.lane.active && !s.lane.active[action.agent].timedOut
  }

  /** The attempt being delivered times out. */
  predicate RunsLate(s: System, action: Action) {
    && action.DeliveryTimesOut? && s.worker.Delivering? && s.worker.late && !s.lane.aborted
    && s.worker.event.agent in s.lane.active && !s.lane.active[s.worker.event.agent].timedOut
  }

  predicate Marks(s: System, action: Action, mark: Mark) {
    var submits := action.Submitted? && Fits(s.lane.kind, action.event) && Accepting(s.lane);
    match mark
    case IsAccepted => submits && HasPlace(s.lane, action.event.agent)
    case IsRefused => submits && !HasPlace(s.lane, action.event.agent)
    case IsDelivered => ReceivesInTime(s, action) && s.flights[action.agent].outcome.value
    case IsFailed => (ReceivesInTime(s, action) && !s.flights[action.agent].outcome.value) || RunsLate(s, action)
  }

  /** How many steps of a run are of a kind. */
  function Count(start: System, actions: seq<Action>, mark: Mark): nat {
    if actions == [] then 0
    else
      var front := actions[..|actions| - 1];
      Count(start, front, mark) + if Marks(Run(start, front), actions[|actions| - 1], mark) then 1 else 0
  }

  function Counter(stats: Stats, mark: Mark): nat {
    match mark
    case IsAccepted => stats.accepted
    case IsRefused => stats.rejectedNewKeys
    case IsDelivered => stats.delivered
    case IsFailed => stats.failed
  }

  lemma StepCounts(s: System, action: Action, mark: Mark)
    ensures Counter(Step(s, action).lane.stats, mark) ==
            Counter(s.lane.stats, mark) + if Marks(s, action, mark) then 1 else 0
  {
    hide HasPlace, Submit, Next, Complete, Timeout, Abort;
    AbortCounts(s.lane);
    match action
    case Submitted(e) => SubmitAnswers(s.lane, e); SubmitCounts(s.lane, e);
    case WorkerScans(now, later) => NextCounts(s.lane, now, later);
    case WorkerReceives(agent, now) =>
      if CanReceive(s, agent) { CompleteCounts(s.lane, agent, s.flights[agent].outcome.value, now); }
    case DeliveryTimesOut(now) => if s.worker.Delivering? { TimeoutCounts(s.lane, s.worker.event, now); }
    case _ =>
  }

  lemma AbortCounts(l: Lane)
    ensures Abort(l).stats == l.stats.(discarded := Abort(l).stats.discarded)
  {
  }

  lemma NextCounts(l: Lane, now: int, later: int)
    ensures Next(l, now, later).0.stats == l.stats
  {
    hide FirstDue, Kept, Earliest;
  }

  lemma CompleteCounts(l: Lane, agent: string, ok: bool, now: int)
    ensures var stats, inTime := Complete(l, agent, ok, now).stats, !l.aborted && agent in l.active
            && !l.active[agent].timedOut;
            && stats.accepted == l.stats.accepted && stats.rejectedNewKeys == l.stats.rejectedNewKeys
            && stats.delivered == l.stats.delivered + (if inTime && ok then 1 else 0)
            && stats.failed == l.stats.failed + (if inTime && !ok then 1 else 0)
  {
    hide PendingAfter, Push;
  }

  lemma TimeoutCounts(l: Lane, e: Event, now: int)
    ensures var stats, late := Timeout(l, e, now).stats, !l.aborted && e.agent in l.active
            && !l.active[e.agent].timedOut;
            && stats.accepted == l.stats.accepted && stats.rejectedNewKeys == l.stats.rejectedNewKeys
            && stats.delivered == l.stats.delivered && stats.failed == l.stats.failed + (if late then 1 else 0)
  {
    hide Leftover;
  }

  lemma SubmitCounts(l: Lane, e: Event)
    ensures var (l', answer) := Submit(l, e);
            && l'.stats.accepted == l.stats.accepted + (if answer == Accepted then 1 else 0)
            && l'.stats.rejectedNewKeys == l.stats.rejectedNewKeys + (if answer == Capacity then 1 else 0)
            && l'.stats.delivered == l.stats.delivered && l'.stats.failed == l.stats.failed
  {
  }

  /** In every run of a new lane the counters are the numbers of accepted submissions, of submissions refused for want
      of room, of good results in time, and of bad ones and timeouts. */
  lemma {:induction false} CountersCount(kind: Kind, maximumPending: nat, retryBackoff: nat, actions: seq<Action>,
                                         mark: Mark)
    ensures var start := Fresh(kind, maximumPending, retryBackoff);
            Counter(Run(start, actions).lane.stats, mark) == Count(start, actions, mark)
  {
    hide Step, Marks;
    if actions != [] {
      var start, front := Fresh(kind, maximumPending, retryBackoff), actions[..|actions| - 1];
      CountersCount(kind, maximumPending, retryBackoff, front, mark);
      StepCounts(Run(start, front), actions[|actions| - 1], mark);
    }
  }

  /** The worker ends gracefully only when the lane is closing and holds nothing. */
  lemma GracefulFinishHoldsNothing(start: System, actions: seq<Action>, now: int, later: int)
    requires Inv(start)
    requires var s := Run(start, actions);
             s.worker == Scanning && !s.lane.aborted && DoScan(s, now, later).worker == Gone
    ensures var s := Run(start, actions);
            s.lane.closing && s.lane.pending == map[] && s.lane.active == map[] && s.stay == map[] && s.flights == map[]
  {
    hide Step, Run, Kept, Earliest, Lists, EntriesInv, Due, Ready, Latest, AccountInv, RoomInv;
    RunsKeepInv(start, actions);
    var s := Run(start, actions);
    NextRotates(s.lane, now, later);
    forall a ensures a !in s.stay { assert ValueAt(s.lane, a).None?; }
    assert Busy(s) == s.flights.Keys;
  }

  // ---- Waking up for a retry -----------------------------------------------------------------

  /** The worker will look at the lane again without help from outside: a wake-up is waiting, or a timer is
      running, or all that is pending has a sink call whose result will be received and, when the lane is
      closing, some such result is still to come. */
  ghost predicate Attentive(s: System) {
    s.worker.Waiting? && !s.lane.aborted ==>
      || s.lane.wake || s.worker.delay > 0
      || ((forall a :: a in s.lane.pending ==> a in s.lane.active) && (s.lane.closing ==> s.lane.active != map[]))
  }

  /** The second clock reading of a pass precedes the earliest retry time it computes a delay for. */
  ghost predicate Punctual(s: System, action: Action) {
    action.WorkerScans? ==>
      var earliest := Earliest(s.lane, s.lane.queue);
      earliest.Some? ==> action.later < earliest.value
  }

  lemma {:induction false} EarliestIsSomeRetry(l: Lane, q: seq<string>)
    ensures Earliest(l, q).Some? <==> exists i :: 0 <= i < |q| && Ready(l, q[i]) && l.pending[q[i]].retryAt.Some?
  {
    if q != [] {
      var n := |q| - 1;
      EarliestIsSomeRetry(l, q[..n]);
      forall i | 0 <= i < n ensures q[..n][i] == q[i] {}
      if Earliest(l, q[..n]).Some? {
        var i :| 0 <= i < n && Ready(l, q[..n][i]) && l.pending[q[..n][i]].retryAt.Some?;
        assert Ready(l, q[i]);
      }
    }
  }

  /** A pass that finds nothing due leaves the worker attentive exactly when its second clock reading still
      precedes the earliest retry time, or there is no retry to wait for. */
  lemma ScanIsAttentiveExactly(s: System, now: int, later: int)
    requires QueueInv(s.lane) && s.worker == Scanning && !s.lane.aborted && !s.lane.wake
    requires DoScan(s, now, later).worker.Waiting?
    ensures Attentive(DoScan(s, now, later)) <==> Punctual(s, WorkerScans(now, later))
  {
    hide Kept, Earliest, EntriesInv, Lists;
    var l := s.lane;
    NextRotates(l, now, later);
    QueueListsReady(l);
    EarliestIsSomeRetry(l, l.queue);
    var s' := DoScan(s, now, later);
    if Earliest(l, l.queue).Some? {
      var i :| 0 <= i < |l.queue| && Ready(l, l.queue[i]) && l.pending[l.queue[i]].retryAt.Some?;
      assert l.queue[i] in s'.lane.pending && l.queue[i] !in s'.lane.active;
    } else {
      forall a | a in l.pending ensures a in l.active {
      }
      assert l.active == map[] ==> l.pending == map[];
    }
  }

  lemma QueueListsReady(l: Lane)
    requires QueueInv(l)
    ensures forall a :: a in l.queue <==> a in l.pending && a !in l.active
  {
    hide EntriesInv, NoRepeats;
  }

  lemma StepKeepsAttentive(s: System, action: Action)
    requires QueueInv(s.lane) && Attentive(s) && Punctual(s, action)
    ensures Attentive(Step(s, action))
  {
    hide Lists, EntriesInv, Occupancy, Push, Coalesced, Timeout, Complete, Earliest, Kept, Merge;
    match action
    case WorkerScans(now, later) =>
      if s.worker == Scanning && !s.lane.aborted && DoScan(s, now, later).worker.Waiting? {
        if s.lane.wake { NextKeepsWake(s.lane, now, later); } else { ScanIsAttentiveExactly(s, now, later); }
      }
    case _ =>
  }

  lemma NextKeepsWake(l: Lane, now: int, later: int)
    ensures Next(l, now, later).0.wake == l.wake
  {
    hide Kept, Earliest;
  }

  ghost predicate AllPunctual(s: System, actions: seq<Action>) {
    actions == [] ||
    (AllPunctual(s, actions[..|actions|-1]) && Punctual(Run(s, actions[..|actions|-1]), actions[|actions|-1]))
  }

  /** A run whose passes are punctual never leaves the worker asleep beside a retry nobody will wake it for. */
  lemma {:induction false} NoRetryIsForgotten(start: System, actions: seq<Action>)
    requires Inv(start) && Attentive(start) && AllPunctual(start, actions)
    ensures Attentive(Run(start, actions))
  {
    hide Step, Attentive, Punctual, CallInv, StayInv, RoomInv, AccountInv, QueueInv;
    if actions != [] {
      var front := actions[..|actions|-1];
      RunsKeepInv(start, front);
      NoRetryIsForgotten(start, front);
      StepKeepsAttentive(Run(start, front), actions[|actions|-1]);
    }
  }

  /** The run that loses a retry: the only sink call fails at time 0, its retry is due at 100, a first pass at
      99 sets a timer, a spare wake-up starts another, and that one reads the clock again at 100. */
  const FORGETFUL: seq<Action> :=
    [Submitted(GREETING), WorkerScans(0, 0), WorkerLaunches, SinkReturns("a", false), WorkerReceives("a", 0),
     WorkerScans(99, 99), WorkerTakesWake, WorkerScans(99, 100)]

  const GREETING := Event("a", 7, None)

  const WAITING_LANE :=
    Lane(Hello, 1, 100, map["a" := Pending(GREETING, Some(100))], ["a"], map[], true, true, false, false, true,
         Stats(1, 0, 0, 0, 1, 1, 0))

  /** The states the run goes through. */
  function Forgetful(i: nat): System {
    var start := Fresh(Hello, 1, 100);
    var stay := map["a" := [GREETING]];
    var sending := start.lane.(active := map["a" := Attempt(GREETING, false)], wake := true,
                               stats := NO_STATS.(accepted := 1));
    var retrying := System(WAITING_LANE, Scanning, false, map[], 1, false, stay, 0);
    match i
    case 0 => start
    case 1 => start.(lane := start.lane.(pending := map["a" := Pending(GREETING, None)], queue := ["a"], wake := true,
                                         stats := NO_STATS.(accepted := 1)), stay := stay)
    case 2 => System(sending, Launching(GREETING), false, map[], 0, false, stay, 0)
    case 3 =>
      System(sending, Delivering(GREETING, 0, false), false, map["a" := Flight(0, GREETING, None)], 1, false, stay, 0)
    case 4 =>
      System(sending, Delivering(GREETING, 0, false), false, map["a" := Flight(0, GREETING, Some(false))], 1, false,
             stay, 0)
    case 5 => retrying
    case 6 => retrying.(worker := Waiting(1))
    case 7 => retrying.(lane := WAITING_LANE.(wake := false))
    case _ => retrying.(lane := WAITING_LANE.(wake := false), worker := Waiting(0))
  }

  lemma ForgetfulSubmit()
    ensures Step(Forgetful(0), FORGETFUL[0]) == Forgetful(1)
  {
    hide Occupancy;
    EmptyOccupancy();
    assert |GREETING.agent| == 1;
    assert Push([], "a") == ["a"] && [] + [GREETING] == [GREETING];
  }

  lemma ForgetfulDelivery()
    ensures Step(Forgetful(1), FORGETFUL[1]) == Forgetful(2)
    ensures Step(Forgetful(2), FORGETFUL[2]) == Forgetful(3)
  {
    hide Timeout, Complete, Abort, Submit;
    var l := Forgetful(1).lane;
    assert Due(l, l.queue[0], 0);
    assert l.queue[..0] == [] && l.queue[1..] == [];
    assert (l.pending - {"a"}) == map[];
  }

  lemma ForgetfulReturn()
    ensures Step(Forgetful(3), FORGETFUL[3]) == Forgetful(4)
  {
    hide Next, Timeout, Complete, Abort, Submit;
    assert Returned(Forgetful(3).flights) == {};
  }

  lemma ForgetfulFailure()
    ensures Step(Forgetful(4), FORGETFUL[4]) == Forgetful(5)
  {
    hide Next, Timeout, Abort, Submit;
    assert Forgetful(4).flights - {"a"} == map[];
    assert Forgetful(4).lane.active - {"a"} == map[];
  }

  lemma ForgetfulPass(s: System, later: int)
    requires s.worker == Scanning && (s.lane == WAITING_LANE || s.lane == WAITING_LANE.(wake := false))
    ensures Step(s, WorkerScans(99, later)) == s.(worker := Waiting(100 - later))
  {
    var l := s.lane;
    assert !Due(l, l.queue[0], 99) && Ready(l, l.queue[0]);
    assert l.queue[..0] == [] && l.queue[1..] == [];
    ScanStep(l, l.queue, 0);
    assert l.queue[..1] == l.queue;
    assert FirstDue(l, l.queue, 99) == 1;
  }

  /** Without punctuality a retry is forgotten: at the end of the run it is due, and the worker waits with no
      timer, no wake-up and no outstanding call, so that no step of the lane itself changes anything. */
  lemma LateReadingForgetsRetry(action: Action)
    ensures var s := Run(Fresh(Hello, 1, 100), FORGETFUL);
            && !Attentive(s) && Due(s.lane, "a", 100)
            && (!action.Submitted? && !action.Closing? && !action.ClosingAborts? && !action.ParentCancelled? ==>
                  Step(s, action) == s)
  {
    ForgetfulRun(8);
    assert FORGETFUL[..8] == FORGETFUL;
    var s := Forgetful(8);
    assert "a" in s.lane.pending && "a" !in s.lane.active;
  }

  lemma {:induction false} ForgetfulRun(n: nat)
    requires n <= 8
    ensures Run(Fresh(Hello, 1, 100), FORGETFUL[..n]) == Forgetful(n)
  {
    hide Step, Fresh;
    if n > 0 {
      assert FORGETFUL[..n][..n-1] == FORGETFUL[..n-1];
      ForgetfulRun(n - 1);
      ForgetfulStep(n - 1);
    } else { FreshIsFirst(); }
  }

  lemma FreshIsFirst()
    ensures Forgetful(0) == Fresh(Hello, 1, 100)
  {
  }

  lemma ForgetfulStep(i: nat)
    requires i < 8
    ensures Step(Forgetful(i), FORGETFUL[i]) == Forgetful(i + 1)
  {
    hide Step;
    match i
    case 0 => ForgetfulSubmit();
    case 1 => ForgetfulDelivery();
    case 2 => ForgetfulDelivery();
    case 3 => ForgetfulReturn();
    case 4 => ForgetfulFailure();
    case 5 => ForgetfulPass(Forgetful(5), 99);
    case 6 => ForgetfulWake();
    case 7 => ForgetfulPass(Forgetful(7), 100);
  }

  lemma ForgetfulWake()
    ensures Step(Forgetful(6), FORGETFUL[6]) == Forgetful(7)
  {
  }
}
