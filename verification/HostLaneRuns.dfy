/** Whole runs of one host observation lane: submitters, the worker goroutine, sink calls that return
    late or never, context cancellation and shutdown, interleaved in any order.

    A `System` is the lane of `HostLane` together with the worker's position, the sink calls that have
    not been consumed yet, and two pieces of history: the events accepted in each agent's current stay,
    and how many stays ended in a delivery. */
module HostLaneRuns {
  import opened Wrappers
  import opened HostLane

  /** Where the worker is: about to scan, about to start the sink call for an event, waiting for the
      result of that call or about to give it up as too late, waiting for something to happen, about to abort
      the lane, or gone. */
  datatype Worker =
    | Scanning
    | Launching(event: Event)
    | Delivering(event: Event, call: nat, late: bool)
    | Waiting(delay: int)
    | Aborting
    | Gone

  /** A sink call: still running, or with its outcome in the results channel. */
  datatype Flight = Flight(call: nat, event: Event, outcome: Option<bool>)

  datatype System = System(
    lane: Lane, worker: Worker, cancelled: bool,
    flights: map<string, Flight>, issued: nat, clash: bool,
    stay: map<string, seq<Event>>, ended: nat)

  datatype Action =
    | Submitted(event: Event)
    | Closing
    | ClosingAborts
    | ParentCancelled
    | WorkerScans(now: int, later: int)
    | WorkerLaunches
    | SinkReturns(agent: string, ok: bool)
    | WorkerReceives(agent: string, now: int)
    | WorkerTakesWake
    | TimerFires
    | DeliveryIsLate
    | DeliveryTimesOut(now: int)
    | WorkerSeesCancel
    | WorkerAborts

  // ---- Steps ---------------------------------------------------------------------------------

  function Extended(stay: map<string, seq<Event>>, e: Event): map<string, seq<Event>> {
    stay[e.agent := (if e.agent in stay then stay[e.agent] else []) + [e]]
  }

  function DoSubmit(s: System, e: Event): System {
    if !Fits(s.lane.kind, e) then s
    else
      var (lane, outcome) := Submit(s.lane, e);
      s.(lane := lane, stay := if outcome == Accepted then Extended(s.stay, e) else s.stay)
  }

  function AfterScan(outcome: NextOutcome): Worker {
    match outcome
    case Finish => Gone
    case Deliver(event) => Launching(event)
    case Wait(delay) => Waiting(delay)
  }

  function DoScan(s: System, now: int, later: int): System {
    if s.worker != Scanning then s
    else
      var (lane, outcome) := Next(s.lane, now, later);
      s.(lane := lane, worker := AfterScan(outcome))
  }

  /** Starting a call for an agent that already has one would confuse their results: `clash` records it. */
  function DoLaunch(s: System): System {
    if !s.worker.Launching? then s
    else
      var e := s.worker.event;
      s.(worker := Delivering(e, s.issued, false), issued := s.issued + 1,
         flights := s.flights[e.agent := Flight(s.issued, e, None)],
         clash := s.clash || e.agent in s.flights)
  }

  function Returned(flights: map<string, Flight>): set<string> {
    set a | a in flights && flights[a].outcome.Some?
  }

  /** The send into the results channel, which has one slot per place in the lane. */
  predicate CanSend(s: System, agent: string) {
    agent in s.flights && s.flights[agent].outcome.None? && |Returned(s.flights)| < s.lane.maximumPending
  }

  function DoReturn(s: System, agent: string, ok: bool): System {
    if !CanSend(s, agent) then s
    else s.(flights := s.flights[agent := s.flights[agent].(outcome := Some(ok))])
  }

  predicate CanReceive(s: System, agent: string) {
    && agent in s.flights && s.flights[agent].outcome.Some?
    && ((s.worker.Delivering? && !s.worker.late) || s.worker.Waiting?)
  }

  /** A result that ends the agent's stay: a success of an attempt that did not time out, with nothing newer. */
  predicate Ends(l: Lane, agent: string, ok: bool) {
    !l.aborted && agent in l.active && !l.active[agent].timedOut && ok && agent !in l.pending
  }

  function DoReceive(s: System, agent: string, now: int): System {
    if !CanReceive(s, agent) then s
    else
      var ok := s.flights[agent].outcome.value;
      var ends := Ends(s.lane, agent, ok);
      s.(lane := Complete(s.lane, agent, ok, now),
         flights := s.flights - {agent},
         worker := if s.worker.Delivering? && s.worker.event.agent != agent then s.worker else Scanning,
         stay := if ends then s.stay - {agent} else s.stay,
         ended := if ends then s.ended + 1 else s.ended)
  }

  /** The delivery's context is done, and the parent's is not. */
  function DoLate(s: System): System {
    if !s.worker.Delivering? || s.cancelled then s else s.(worker := s.worker.(late := true))
  }

  function DoTimeout(s: System, now: int): System {
    if !s.worker.Delivering? || !s.worker.late then s
    else s.(lane := Timeout(s.lane, s.worker.event, now), worker := Scanning)
  }

  function DoAbort(s: System, worker: Worker): System {
    s.(lane := Abort(s.lane), cancelled := true, stay := map[], worker := worker)
  }

  function Step(s: System, action: Action): System {
    match action
    case Submitted(e) => DoSubmit(s, e)
    case Closing => s.(lane := BeginClose(s.lane))
    case ClosingAborts => DoAbort(s, s.worker)
    case ParentCancelled => s.(cancelled := true)
    case WorkerScans(now, later) => DoScan(s, now, later)
    case WorkerLaunches => DoLaunch(s)
    case SinkReturns(agent, ok) => DoReturn(s, agent, ok)
    case WorkerReceives(agent, now) => DoReceive(s, agent, now)
    case WorkerTakesWake =>
      if s.worker.Waiting? && s.lane.wake then s.(lane := s.lane.(wake := false), worker := Scanning) else s
    case TimerFires => if s.worker.Waiting? && s.worker.delay > 0 then s.(worker := Scanning) else s
    case DeliveryIsLate => DoLate(s)
    case DeliveryTimesOut(now) => DoTimeout(s, now)
    case WorkerSeesCancel =>
      if s.cancelled && (s.worker.Waiting? || (s.worker.Delivering? && !s.worker.late)) then s.(worker := Aborting)
      else s
    case WorkerAborts => if s.worker.Aborting? then DoAbort(s, Gone) else s
  }

  function Run(s: System, actions: seq<Action>): System {
    if actions == [] then s else Step(Run(s, actions[..|actions|-1]), actions[|actions|-1])
  }

  /** A lane that has just been started. */
  function Fresh(kind: Kind, maximumPending: nat, retryBackoff: nat): System {
    System(Lane(kind, maximumPending, retryBackoff, map[], [], map[], true, true, false, false, false, NO_STATS),
           Scanning, false, map[], 0, false, map[], 0)
  }

  // ---- The latest of a stay ------------------------------------------------------------------

  function Latest(kind: Kind, events: seq<Event>): Event
    requires events != []
  {
    if |events| == 1 then events[0]
    else Merge(kind, Latest(kind, events[..|events|-1]), events[|events|-1])
  }

  /** The event at `i` has the highest rank, and a higher one than every event before it. */
  ghost predicate FirstMaximumAt(kind: Kind, events: seq<Event>, i: int) {
    && 0 <= i < |events|
    && (forall j :: 0 <= j < |events| ==> Rank(kind, events[j]) <= Rank(kind, events[i]))
    && (forall j :: 0 <= j < i ==> Rank(kind, events[j]) < Rank(kind, events[i]))
  }

  ghost predicate IsFirstMaximum(kind: Kind, events: seq<Event>, e: Event) {
    exists i :: 0 <= i < |events| && FirstMaximumAt(kind, events, i) && events[i] == e
  }

  lemma FirstMaximumGrows(kind: Kind, front: seq<Event>, e: Event, i: int)
    requires FirstMaximumAt(kind, front, i)
    ensures FirstMaximumAt(kind, front + [e], if Rank(kind, e) > Rank(kind, front[i]) then |front| else i)
  {
    hide Rank;
  }

  /** Merging keeps the event of highest rank, and of several such the one that arrived first. */
  lemma {:induction false} LatestIsFirstMaximum(kind: Kind, events: seq<Event>)
    requires events != [] && forall i :: 0 <= i < |events| ==> Fits(kind, events[i])
    ensures Fits(kind, Latest(kind, events))
    ensures IsFirstMaximum(kind, events, Latest(kind, events))
  {
    hide Rank, Fits, FirstMaximumAt;
    var n := |events| - 1;
    if n == 0 {
      OnlyMaximum(kind, events);
    } else {
      var front, e := events[..n], events[n];
      LatestIsFirstMaximum(kind, front);
      var i :| 0 <= i < |front| && FirstMaximumAt(kind, front, i) && front[i] == Latest(kind, front);
      FirstMaximumGrows(kind, front, e, i);
      assert events == front + [e];
      assert events[i] == front[i];
    }
  }

  lemma OnlyMaximum(kind: Kind, events: seq<Event>)
    requires |events| == 1
    ensures FirstMaximumAt(kind, events, 0)
  {
  }

  // ---- Capacity ------------------------------------------------------------------------------

  lemma SizeAdd(agents: set<string>, k: string)
    ensures Size(agents + {k}) == Size(agents) + (if k in agents then 0 else 1)
    ensures Size(agents - {k}) == Size(agents) - (if k in agents then 1 else 0)
  {
    if k in agents { assert agents + {k} == agents; } else { assert agents - {k} == agents; }
  }

  lemma OccupancyAdd(p: map<string, Pending>, a: map<string, Attempt>, k: string, v: Pending)
    ensures Occupancy(p[k := v], a) == Occupancy(p, a) + (if k in p || k in a then 0 else 1)
  {
    hide Size;
    SizeAdd(p.Keys + a.Keys, k);
    assert p[k := v].Keys + a.Keys == (p.Keys + a.Keys) + {k};
  }

  lemma OccupancyMove(p: map<string, Pending>, a: map<string, Attempt>, k: string, v: Attempt)
    requires k in p
    ensures Occupancy(p - {k}, a[k := v]) == Occupancy(p, a)
  {
    hide Size;
    assert (p - {k}).Keys + a[k := v].Keys == p.Keys + a.Keys;
  }

  lemma OccupancyReplace(p: map<string, Pending>, a: map<string, Attempt>, k: string, v: Pending, w: Attempt)
    requires k in a
    ensures Occupancy(p[k := v], a[k := w]) == Occupancy(p, a)
  {
    hide Size;
    assert p[k := v].Keys + a[k := w].Keys == p.Keys + a.Keys;
  }

  lemma OccupancyDrop(p: map<string, Pending>, a: map<string, Attempt>, k: string)
    requires k in a
    ensures Occupancy(p, a - {k}) == Occupancy(p, a) - (if k in p then 0 else 1)
  {
    hide Size;
    SizeAdd(p.Keys + a.Keys, k);
    if k in p { assert p.Keys + (a - {k}).Keys == p.Keys + a.Keys; }
    else { assert p.Keys + (a - {k}).Keys == (p.Keys + a.Keys) - {k}; }
  }

  /** How each step changes the number of places taken. */
  lemma SubmitOccupancy(l: Lane, e: Event)
    requires EntriesInv(l) && Fits(l.kind, e)
    ensures var (l', outcome) := Submit(l, e);
            Occupancy(l'.pending, l'.active) ==
              Occupancy(l.pending, l.active) +
                (if outcome == Accepted && e.agent !in l.pending && e.agent !in l.active then 1 else 0)
  {
    hide Occupancy, Push, EntriesInv;
    CoalescedFits(l, e);
    OccupancyAdd(l.pending, l.active, e.agent, Pending(Coalesced(l, e), None));
  }

  lemma NextOccupancy(l: Lane, now: int, later: int)
    ensures var l' := Next(l, now, later).0;
            Occupancy(l'.pending, l'.active) == Occupancy(l.pending, l.active)
  {
    hide Occupancy, Kept, Earliest, Ready;
    var i := FirstDue(l, l.queue, now);
    if i < |l.queue| {
      DueIsPending(l, l.queue[i], now);
      OccupancyMove(l.pending, l.active, l.queue[i], Attempt(l.pending[l.queue[i]].event, false));
    }
  }

  lemma DueIsPending(l: Lane, a: string, now: int)
    requires Due(l, a, now)
    ensures a in l.pending && a !in l.active
  {
  }

  lemma TimeoutOccupancy(l: Lane, e: Event, now: int)
    requires EntriesInv(l) && Fits(l.kind, e)
    ensures var l' := Timeout(l, e, now);
            Occupancy(l'.pending, l'.active) == Occupancy(l.pending, l.active)
  {
    hide Occupancy, Leftover, EntriesInv, Fits;
    LeftoverFits(l, e);
    if e.agent in l.active {
      OccupancyReplace(l.pending, l.active, e.agent,
                       Pending(Leftover(l, e.agent, e), Some(now + l.retryBackoff)),
                       l.active[e.agent].(timedOut := true));
    }
  }

  lemma CompleteOccupancy(l: Lane, agent: string, ok: bool, now: int)
    requires EntriesInv(l)
    ensures var l' := Complete(l, agent, ok, now);
            Occupancy(l'.pending, l'.active) == Occupancy(l.pending, l.active) - (if Ends(l, agent, ok) then 1 else 0)
  {
    hide Occupancy, Leftover, Push;
    if !l.aborted && agent in l.active {
      var v := Pending(Leftover(l, agent, l.active[agent].event), Some(now + l.retryBackoff));
      OccupancyAdd(l.pending, l.active, agent, v);
      OccupancyDrop(l.pending[agent := v], l.active, agent);
      OccupancyDrop(l.pending, l.active, agent);
    }
  }

  lemma EmptyOccupancy()
    ensures Occupancy(map[], map[]) == 0
  {
  }

  // ---- Sink calls ----------------------------------------------------------------------------

  function Starting(s: System): set<string> {
    if s.worker.Launching? then {s.worker.event.agent} else {}
  }

  /** The agents for which a sink call is running, returned but not consumed, or about to start. */
  function Busy(s: System): set<string> {
    s.flights.Keys + Starting(s)
  }

  ghost predicate AttemptInv(s: System) {
    match s.worker
    case Launching(e) =>
      e.agent !in s.flights
        && (!s.lane.aborted ==> e.agent in s.lane.active && s.lane.active[e.agent] == Attempt(e, false))
    case Delivering(e, call, _) =>
      && e.agent in s.flights && s.flights[e.agent].call == call && s.flights[e.agent].event == e
      && (!s.lane.aborted ==> e.agent in s.lane.active && s.lane.active[e.agent] == Attempt(e, false))
    case _ => true
  }

  /** Until the lane aborts, exactly the active agents have a call, and it carries the attempt's event. */
  ghost predicate FlightInv(s: System) {
    && !s.clash
    && (!s.lane.aborted ==> Busy(s) == s.lane.active.Keys)
    && (!s.lane.aborted ==>
          forall a :: a in s.flights && a in s.lane.active ==> s.flights[a].event == s.lane.active[a].event)
    && (forall a :: a in s.flights ==> s.flights[a].event.agent == a)
  }

  ghost predicate CallInv(s: System) {
    AttemptInv(s) && FlightInv(s)
  }

  lemma ScanKeepsCalls(s: System, now: int, later: int)
    requires CallInv(s) && QueueInv(s.lane)
    ensures CallInv(DoScan(s, now, later))
    ensures DoScan(s, now, later).worker.Launching? || Busy(DoScan(s, now, later)) == Busy(s)
  {
    hide QueueInv, Kept, Earliest, Due, Ready;
    if s.worker == Scanning && !s.lane.aborted {
      NextRotates(s.lane, now, later);
      ScanSelects(s.lane, now);
      var i := FirstDue(s.lane, s.lane.queue, now);
      if i < |s.lane.queue| { SelectKeepsCalls(s, i, now, later); }
    }
  }

  lemma SelectKeepsCalls(s: System, i: nat, now: int, later: int)
    requires CallInv(s) && s.worker == Scanning && !s.lane.aborted && i < |s.lane.queue|
    requires var a := s.lane.queue[i]; a in s.lane.pending && a !in s.lane.active && s.lane.pending[a].event.agent == a
    requires var (l', outcome) := Next(s.lane, now, later);
             var event := s.lane.pending[s.lane.queue[i]].event;
             outcome == Deliver(event) && !l'.aborted
               && l'.active == s.lane.active[s.lane.queue[i] := Attempt(event, false)]
    ensures CallInv(DoScan(s, now, later))
  {
    hide Next;
    var s' := DoScan(s, now, later);
    assert Busy(s') == s'.lane.active.Keys;
  }

  lemma ScanSelects(l: Lane, now: int)
    requires QueueInv(l)
    ensures var i := FirstDue(l, l.queue, now);
            i < |l.queue| ==>
              var a := l.queue[i];
              a in l.pending && a !in l.active && l.pending[a].event.agent == a && Fits(l.kind, l.pending[a].event)
  {
    hide Lists;
    var i := FirstDue(l, l.queue, now);
    if i < |l.queue| {
      DueIsPending(l, l.queue[i], now);
    }
  }

  lemma LaunchKeepsCalls(s: System)
    requires CallInv(s)
    ensures CallInv(DoLaunch(s))
    ensures Busy(DoLaunch(s)) == Busy(s)
  {
    var s' := DoLaunch(s);
    if s.worker.Launching? {
      assert Busy(s') == Busy(s);
    }
  }

  lemma ReturnKeepsCalls(s: System, agent: string, ok: bool)
    requires CallInv(s)
    ensures CallInv(DoReturn(s, agent, ok))
    ensures Busy(DoReturn(s, agent, ok)) == Busy(s)
  {
    hide CanSend;
    var s' := DoReturn(s, agent, ok);
    if CanSend(s, agent) {
      CanSendMeans(s, agent);
      assert s'.flights.Keys == s.flights.Keys;
    }
  }

  lemma CanSendMeans(s: System, agent: string)
    requires CanSend(s, agent)
    ensures agent in s.flights && s.flights[agent].outcome.None?
  {
  }

  lemma ReceiveKeepsCalls(s: System, agent: string, now: int)
    requires CallInv(s)
    ensures CallInv(DoReceive(s, agent, now))
    ensures Busy(DoReceive(s, agent, now)) <= Busy(s)
  {
    hide PendingAfter, StatsAfter, Push;
    var s' := DoReceive(s, agent, now);
    if CanReceive(s, agent) && !s.lane.aborted {
      assert agent in Busy(s);
      assert s'.lane.active == s.lane.active - {agent};
      assert Busy(s') == Busy(s) - {agent};
    }
  }

  lemma TimeoutKeepsCalls(s: System, now: int)
    requires CallInv(s)
    ensures CallInv(DoTimeout(s, now))
    ensures Busy(DoTimeout(s, now)) == Busy(s)
  {
    hide Leftover;
    var s' := DoTimeout(s, now);
    if s.worker.Delivering? && s.worker.late {
      assert Busy(s') == Busy(s);
      if !s.lane.aborted { assert s'.lane.active.Keys == s.lane.active.Keys; }
    }
  }

  lemma AbortKeepsCalls(s: System, worker: Worker)
    requires CallInv(s) && (worker == s.worker || worker == Gone)
    ensures CallInv(DoAbort(s, worker))
    ensures Busy(DoAbort(s, worker)) <= Busy(s)
  {
    hide Occupancy;
  }
}
