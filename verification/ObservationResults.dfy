/** What the result of a sink call leads to, in every run of the two observation dispatchers: only a report whose call
    ended well is remembered as persisted, and a report leaves its lane only with such a result, or when a call that
    had timed out is released (backend/internal/agentcontrol/plugin_observation_dispatcher.go and
    discovery_observer.go). */
module ObservationResults {
  import opened Wrappers
  import opened ObservationLanes
  import opened ObservationRuns

  // ---- The results of calls ------------------------------------------------------------------

  predicate Answers(calls: map<nat, Call>, c: nat, id: LaneId, r: Report, outcome: Outcome) {
    c in calls && calls[c] == Call(id, r, Some(outcome))
  }

  /** A call of this lane with this report has ended like this. */
  ghost predicate Answered(calls: map<nat, Call>, id: LaneId, r: Report, outcome: Outcome) {
    exists c :: Answers(calls, c, id, r, outcome)
  }

  /** What must have happened before a goroutine is where it is. */
  ghost predicate Earned(f: Flavour, calls: map<nat, Call>, id: LaneId, t: Thread) {
    match t
    case Delivering(r, c) => c in calls && calls[c].lane == id && calls[c].report == r
    case Awaiting(r, c) => c in calls && calls[c].lane == id && calls[c].report == r
    case Persisting(r) => Answered(calls, id, r, Done)
    case LatePersisting(r) => Answered(calls, id, r, Done)
    case Clearing(r) => Answered(calls, id, r, Done) || (f.Discovery? && Answered(calls, id, r, Rejected))
    case Releasing(r) => exists outcome :: Answered(calls, id, r, outcome)
    case _ => true
  }

  ghost predicate ThreadsEarned(f: Flavour, s: System) {
    forall id :: id in s.threads ==> Earned(f, s.calls, id, s.threads[id])
  }

  /** What is remembered of an agent was delivered by a call of a lane of that agent. */
  ghost predicate Delivered(s: System, agent: Agent, r: Report) {
    exists id :: id in s.d.table && s.d.table[id].agent == agent && Answered(s.calls, id, r, Done)
  }

  ghost predicate RecordsEarned(s: System) {
    forall agent :: agent in s.d.last ==> Delivered(s, agent, s.d.last[agent].report)
  }

  // ---- When a report is accepted -------------------------------------------------------------

  /** The report is not outdated by what is remembered of its agent; one that is remembered already comes again only
      after the refresh interval, and to the discovery dispatcher at any time. */
  predicate Current(f: Flavour, d: Dispatcher, agent: Agent, report: Report, now: int) {
    agent in d.last ==>
      var known := d.last[agent];
      || report.revision > known.report.revision
      || (report == known.report && (f.Discovery? || now - known.deliveredAt >= d.refresh))
  }

  /** A lane takes a report that is newer than what it holds; a discovery lane takes none while its call is timed
      out. */
  predicate Takes(f: Flavour, l: Lane, report: Report) {
    && (l.pending.Some? ==> report.revision > l.pending.value.revision)
    && (l.active.Some? ==> report.revision > l.active.value.revision)
    && (f.Discovery? ==> !l.quarantined)
  }

  /** A submission is accepted exactly when the dispatcher is open, the report is valid and current, there is a lane or
      room for one, and the lane takes it; it is then the one that waits, and its lane has a token. */
  lemma AcceptedExactlyWhen(f: Flavour, d: Dispatcher, agent: Agent, report: Report, valid: bool, now: int)
    requires RegistryInv(d)
    ensures var (d', answer) := Submit(f, d, agent, report, valid, now);
            && (answer == Accepted <==>
                  && valid && report.revision != 0 && !d.closed && Current(f, d, agent, report, now)
                  && (if agent in d.lanes then Takes(f, LaneAt(d, d.lanes[agent]), report) else |d.lanes| < d.maximum))
            && (answer == Closed <==> valid && report.revision != 0 && d.closed)
            && (answer == Duplicate ==>
                  (agent in d.last && report == d.last[agent].report)
                  || (agent in d.lanes
                      && Some(report) in {LaneAt(d, d.lanes[agent]).pending, LaneAt(d, d.lanes[agent]).active}))
            && (answer == Capacity ==>
                  if agent in d.lanes then f.Discovery? && LaneAt(d, d.lanes[agent]).quarantined
                  else |d.lanes| >= d.maximum)
            && (answer == Accepted ==>
                  && agent in d'.lanes && LaneAt(d', d'.lanes[agent]).pending == Some(report)
                  && LaneAt(d', d'.lanes[agent]).wake)
  {
  }

  // ---- Calls and lanes only grow -------------------------------------------------------------

  /** Calls stay, and so do their results. */
  ghost predicate CallsGrow(calls: map<nat, Call>, calls': map<nat, Call>) {
    forall c :: c in calls ==>
      && c in calls' && calls'[c].lane == calls[c].lane && calls'[c].report == calls[c].report
      && (calls[c].outcome.Some? ==> calls'[c].outcome == calls[c].outcome)
  }

  /** Lanes stay and keep their agent. */
  ghost predicate LanesGrow(d: Dispatcher, d': Dispatcher) {
    forall id :: id in d.table ==> id in d'.table && d'.table[id].agent == d.table[id].agent
  }

  lemma AnsweredStays(calls: map<nat, Call>, calls': map<nat, Call>, id: LaneId, r: Report, outcome: Outcome)
    requires CallsGrow(calls, calls') && Answered(calls, id, r, outcome)
    ensures Answered(calls', id, r, outcome)
  {
    var c :| Answers(calls, c, id, r, outcome);
    assert Answers(calls', c, id, r, outcome);
  }

  lemma EarnedStays(f: Flavour, calls: map<nat, Call>, calls': map<nat, Call>, id: LaneId, t: Thread)
    requires CallsGrow(calls, calls') && Earned(f, calls, id, t)
    ensures Earned(f, calls', id, t)
  {
    hide Answered;
    forall r, outcome | Answered(calls, id, r, outcome) ensures Answered(calls', id, r, outcome) {
      AnsweredStays(calls, calls', id, r, outcome);
    }
  }

  lemma DeliveredStays(s: System, s': System, agent: Agent, r: Report)
    requires CallsGrow(s.calls, s'.calls) && LanesGrow(s.d, s'.d) && Delivered(s, agent, r)
    ensures Delivered(s', agent, r)
  {
    hide Answered, CallsGrow;
    var id :| id in s.d.table && s.d.table[id].agent == agent && Answered(s.calls, id, r, Done);
    AnsweredStays(s.calls, s'.calls, id, r, Done);
  }

  ghost predicate Grows(s: System, s': System) {
    CallsGrow(s.calls, s'.calls) && LanesGrow(s.d, s'.d)
  }

  lemma GoGrows(s: System, id: LaneId, l: Lane, t: Thread, agent: Agent)
    requires l.agent == LaneAt(s.d, id).agent
    ensures var s' := Go(s, id, l, t);
            Grows(s, s) && Grows(s, s') && Grows(s, End(s', id)) && Grows(s, End(s'.(d := Unregister(s'.d, agent)), id))
    ensures Grows(s, End(s.(d := Unregister(s.d, agent)), id))
  {
  }

  lemma ReleaseGrows(f: Flavour, s: System, id: LaneId)
    ensures Grows(s, Release(f, s, id)) && Grows(s, Retire(s, id))
  {
    hide Grows, Go, End, Unregister;
    var l := LaneAt(s.d, id);
    GoGrows(s, id, Released(l), Restarting, l.agent);
    GoGrows(s, id, l, Select, l.agent);
  }

  lemma StartGrows(s: System, id: LaneId, r: Report, call: nat)
    requires call !in s.calls
    ensures Grows(s, Start(s, id, r, call))
  {
  }

  lemma PersistGrows(f: Flavour, s: System, id: LaneId, r: Report, now: int, t: Thread)
    ensures Grows(s, PersistStep(f, s, id, r, now, t))
  {
    hide Persist;
    PersistKeepsLanes(f, s.d, LaneAt(s.d, id).agent, r, now);
  }

  lemma ProceedGrows(f: Flavour, s: System, id: LaneId, now: int, call: nat)
    requires id in s.threads
    ensures Grows(s, Proceed(f, s, id, now, call))
  {
    hide Grows, Go, Release, Retire, PersistStep, Start;
    forall l: Lane, t | l.agent == LaneAt(s.d, id).agent ensures Grows(s, Go(s, id, l, t)) {
      GoGrows(s, id, l, t, l.agent);
    }
    GoGrows(s, id, LaneAt(s.d, id), Select, "");
    ReleaseGrows(f, s, id);
    match s.threads[id]
    case Calling(r) => if call !in s.calls { StartGrows(s, id, r, call); }
    case Persisting(r) => PersistGrows(f, s, id, r, now, Clearing(r));
    case LatePersisting(r) => PersistGrows(f, s, id, r, now, Releasing(r));
    case _ =>
  }

  /** What is remembered, and in which order, is the same. */
  predicate SameBook(d: Dispatcher, d': Dispatcher) {
    d'.last == d.last && d'.order == d.order && d'.maximum == d.maximum
  }

  /** Submitting changes neither calls, nor records, nor what a lane has active. */
  lemma SubmitLeaves(f: Flavour, s: System, agent: Agent, report: Report, valid: bool, now: int)
    requires RegistryInv(s.d)
    ensures var s' := SubmitStep(f, s, agent, report, valid, now);
            && s'.calls == s.calls && SameBook(s.d, s'.d)
            && forall id :: id in s.d.table ==>
                 id in s'.d.table && s'.d.table[id].agent == s.d.table[id].agent
                   && s'.d.table[id].active == s.d.table[id].active
  {
    hide Screen, Judge;
  }

  lemma StepGrows(f: Flavour, s: System, a: Action)
    requires Inv(f, s)
    ensures Grows(s, Step(f, s, a))
  {
    hide CallInv, ThreadInv, RegistryInv, OrderInv, AttendInv, Proceed, SubmitStep;
    match a
    case SubmitReport(agent, report, valid, now) => SubmitLeaves(f, s, agent, report, valid, now);
    case Proceeds(id, now, call) => if id in s.threads { ProceedGrows(f, s, id, now, call); }
    case _ =>
  }

  // ---- Every goroutine is where it is for a reason -------------------------------------------

  /** The step of a lane's goroutine leaves all others where they are. */
  lemma OtherThreadsStay(f: Flavour, s: System, a: Action, i: LaneId)
    requires Inv(f, s) && i in Step(f, s, a).threads
    ensures || (i in s.threads && Step(f, s, a).threads[i] == s.threads[i]) || Step(f, s, a).threads[i] == Select
            || ((a.Proceeds? || a.TimesOut?) && a.lane == i && i in s.threads)
  {
    hide Inv, Persist, Screen, Judge;
  }

  lemma ProceedIsEarned(f: Flavour, s: System, id: LaneId, now: int, call: nat)
    requires id in s.threads && Earned(f, s.calls, id, s.threads[id])
    ensures var s' := Proceed(f, s, id, now, call);
            id in s'.threads ==> Earned(f, s'.calls, id, s'.threads[id])
  {
    hide Persist, Answered;
    match s.threads[id]
    case Delivering(r, c) =>
      if s.calls[c].outcome.Some? { AnswerIs(s.calls, c, id, r, s.calls[c].outcome.value); }
    case Awaiting(r, c) =>
      if s.calls[c].outcome.Some? { AnswerIs(s.calls, c, id, r, s.calls[c].outcome.value); }
    case _ =>
  }

  lemma AnswerIs(calls: map<nat, Call>, c: nat, id: LaneId, r: Report, outcome: Outcome)
    requires c in calls && calls[c] == Call(id, r, Some(outcome))
    ensures Answered(calls, id, r, outcome)
  {
    assert Answers(calls, c, id, r, outcome);
  }

  lemma StepKeepsThreadsEarned(f: Flavour, s: System, a: Action)
    requires Inv(f, s) && ThreadsEarned(f, s)
    ensures ThreadsEarned(f, Step(f, s, a))
  {
    hide Inv, Earned, Proceed, SubmitStep, CallsGrow;
    var s' := Step(f, s, a);
    StepGrows(f, s, a);
    forall i | i in s'.threads ensures Earned(f, s'.calls, i, s'.threads[i]) {
      OtherThreadsStay(f, s, a, i);
      if i in s.threads && s'.threads[i] == s.threads[i] {
        EarnedStays(f, s.calls, s'.calls, i, s.threads[i]);
      } else if s'.threads[i] == Select {
        SelectIsEarned(f, s'.calls, i);
      } else if a.Proceeds? {
        ProceedIsEarned(f, s, i, a.now, a.call);
      } else {
        TimeOutIsEarned(f, s, i);
      }
    }
  }

  lemma SelectIsEarned(f: Flavour, calls: map<nat, Call>, id: LaneId)
    ensures Earned(f, calls, id, Select)
  {
  }

  lemma TimeOutIsEarned(f: Flavour, s: System, id: LaneId)
    requires id in s.threads && Earned(f, s.calls, id, s.threads[id])
    ensures id in TimeOut(s, id).threads && Earned(f, TimeOut(s, id).calls, id, TimeOut(s, id).threads[id])
  {
  }

  // ---- Every record is there for a reason ----------------------------------------------------

  /** Only persisting changes what is remembered, and only of the lane's agent, to the report being persisted. */
  lemma OnlyPersistingRecords(f: Flavour, s: System, a: Action, agent: Agent)
    requires Inv(f, s) && agent in Step(f, s, a).d.last
    ensures var last := Step(f, s, a).d.last;
            || (agent in s.d.last && last[agent].report == s.d.last[agent].report)
            || (&& a.Proceeds? && a.lane in s.threads && a.lane in s.d.table && s.d.table[a.lane].agent == agent
                && s.threads[a.lane] in {Persisting(last[agent].report), LatePersisting(last[agent].report)})
  {
    hide CallInv, AttendInv, LaneOrdered, Proceed, SubmitStep, OrderInv, RegistryInv;
    match a
    case SubmitReport(submitter, report, valid, now) => SubmitLeaves(f, s, submitter, report, valid, now);
    case Proceeds(id, now, call) =>
      if id in s.threads {
        if s.threads[id].Persisting? || s.threads[id].LatePersisting? {
          PersistIsAhead(s.d, id, s.threads[id].report);
          PersistingRecords(f, s, id, s.threads[id].report, now, call);
        } else {
          ProceedLeavesRecords(f, s, id, now, call);
        }
      }
    case _ =>
  }

  lemma PersistingRecords(f: Flavour, s: System, id: LaneId, r: Report, now: int, call: nat)
    requires id in s.threads && s.threads[id] in {Persisting(r), LatePersisting(r)}
             && Ahead(r, s.d.last, LaneAt(s.d, id).agent)
    ensures var last, agent := Proceed(f, s, id, now, call).d.last, LaneAt(s.d, id).agent;
            && (forall b :: b in last && b != agent ==> b in s.d.last && last[b] == s.d.last[b])
            && (agent in last ==> last[agent].report == r)
  {
    hide Persist;
    PersistRecords(f, s.d, LaneAt(s.d, id).agent, r, now);
  }

  lemma ProceedLeavesRecords(f: Flavour, s: System, id: LaneId, now: int, call: nat)
    requires id in s.threads && !s.threads[id].Persisting? && !s.threads[id].LatePersisting?
    ensures SameBook(s.d, Proceed(f, s, id, now, call).d)
  {
    hide Persist, PersistStep, Go, End, Unregister, Start, Release, Retire;
    forall l, t ensures SameBook(s.d, Go(s, id, l, t).d) { GoLeavesRecords(s, id, l, t, ""); }
    forall r, c ensures SameBook(s.d, Start(s, id, r, c).d) { StartLeavesRecords(s, id, r, c); }
    ReleaseLeavesRecords(f, s, id);
  }

  lemma GoLeavesRecords(s: System, id: LaneId, l: Lane, t: Thread, agent: Agent)
    ensures var s' := Go(s, id, l, t);
            && SameBook(s.d, s'.d) && SameBook(s.d, End(s', id).d)
            && SameBook(s.d, End(s'.(d := Unregister(s'.d, agent)), id).d)
            && SameBook(s.d, End(s.(d := Unregister(s.d, agent)), id).d)
  {
  }

  lemma StartLeavesRecords(s: System, id: LaneId, r: Report, call: nat)
    ensures SameBook(s.d, Start(s, id, r, call).d)
  {
  }

  lemma ReleaseLeavesRecords(f: Flavour, s: System, id: LaneId)
    ensures SameBook(s.d, Release(f, s, id).d) && SameBook(s.d, Retire(s, id).d)
  {
    hide Go, End, Unregister;
    var l := LaneAt(s.d, id);
    GoLeavesRecords(s, id, Released(l), Restarting, l.agent);
    GoLeavesRecords(s, id, l, Select, l.agent);
  }

  lemma StepKeepsRecordsEarned(f: Flavour, s: System, a: Action)
    requires Inv(f, s) && ThreadsEarned(f, s) && RecordsEarned(s)
    ensures RecordsEarned(Step(f, s, a))
  {
    hide Inv, Step, Answered, CallsGrow, LanesGrow, Delivered;
    var s' := Step(f, s, a);
    StepGrows(f, s, a);
    forall agent | agent in s'.d.last ensures Delivered(s', agent, s'.d.last[agent].report) {
      OnlyPersistingRecords(f, s, a, agent);
      var r := s'.d.last[agent].report;
      if !(agent in s.d.last && r == s.d.last[agent].report) { LaneDelivered(s, a.lane, agent, r); }
      DeliveredStays(s, s', agent, r);
    }
  }

  lemma LaneDelivered(s: System, id: LaneId, agent: Agent, r: Report)
    requires id in s.d.table && s.d.table[id].agent == agent && Answered(s.calls, id, r, Done)
    ensures Delivered(s, agent, r)
  {
    hide Answered;
  }

  // ---- What holds in every run ---------------------------------------------------------------

  lemma {:induction false} RunsKeepEarned(f: Flavour, maximum: nat, refresh: int, actions: seq<Action>)
    ensures var s := Run(f, Fresh(maximum, refresh), actions);
            Inv(f, s) && ThreadsEarned(f, s) && RecordsEarned(s)
  {
    hide Inv, Step, Earned, Delivered;
    if actions == [] {
      FreshInv(f, maximum, refresh);
    } else {
      var front := actions[..|actions| - 1];
      var before := Run(f, Fresh(maximum, refresh), front);
      RunsKeepEarned(f, maximum, refresh, front);
      StepKeepsInv(f, before, actions[|actions| - 1]);
      StepKeepsThreadsEarned(f, before, actions[|actions| - 1]);
      StepKeepsRecordsEarned(f, before, actions[|actions| - 1]);
    }
  }

  /** In every run of either dispatcher: what is remembered of an agent as persisted was handed to the sink by a call of
      a lane of that agent, and that call ended well, in time or late. */
  lemma PersistedMeansDone(f: Flavour, maximum: nat, refresh: int, actions: seq<Action>, agent: Agent)
    requires agent in Run(f, Fresh(maximum, refresh), actions).d.last
    ensures var s := Run(f, Fresh(maximum, refresh), actions);
            exists c ::
              && c in s.calls && s.calls[c].outcome == Some(Done) && s.calls[c].report == s.d.last[agent].report
              && s.calls[c].lane in s.d.table && s.d.table[s.calls[c].lane].agent == agent
  {
    hide Run, Inv, ThreadsEarned;
    RunsKeepEarned(f, maximum, refresh, actions);
    var s := Run(f, Fresh(maximum, refresh), actions);
    var id :| id in s.d.table && s.d.table[id].agent == agent && Answered(s.calls, id, s.d.last[agent].report, Done);
    var c :| Answers(s.calls, c, id, s.d.last[agent].report, Done);
    assert c in s.calls;
  }

  /** In every run a report stays the active one of its lane until a call with it has ended well, or was rejected by the
      discovery sink, or until a call that had timed out is released. */
  lemma ActiveEndsOnlyBy(f: Flavour, maximum: nat, refresh: int, actions: seq<Action>, a: Action, id: LaneId, r: Report)
    requires id in Run(f, Fresh(maximum, refresh), actions).d.table
    requires LaneAt(Run(f, Fresh(maximum, refresh), actions).d, id).active == Some(r)
    requires LaneAt(Step(f, Run(f, Fresh(maximum, refresh), actions), a).d, id).active != Some(r)
    ensures var s := Run(f, Fresh(maximum, refresh), actions);
            && a.Proceeds? && a.lane == id && id in s.threads
            && (|| (s.threads[id] == Clearing(r)
                    && (Answered(s.calls, id, r, Done) || (f.Discovery? && Answered(s.calls, id, r, Rejected))))
                || (s.threads[id] == Releasing(r) && LaneAt(s.d, id).quarantined
                    && exists outcome :: Answered(s.calls, id, r, outcome)))
  {
    hide Run, Step, Inv, Answered, RecordsEarned;
    RunsKeepEarned(f, maximum, refresh, actions);
    var s := Run(f, Fresh(maximum, refresh), actions);
    ActiveEndsByStep(f, s, a, id, r);
    assert Earned(f, s.calls, id, s.threads[id]);
  }

  lemma ActiveEndsByStep(f: Flavour, s: System, a: Action, id: LaneId, r: Report)
    requires Inv(f, s) && id in s.d.table
    requires LaneAt(s.d, id).active == Some(r) && LaneAt(Step(f, s, a).d, id).active != Some(r)
    ensures a.Proceeds? && a.lane == id && id in s.threads
    ensures s.threads[id] == Clearing(r) || (s.threads[id] == Releasing(r) && LaneAt(s.d, id).quarantined)
  {
    hide CallInv, OrderInv, AttendInv, ThreadInv, RegistryInv, Proceed, SubmitStep;
    match a
    case SubmitReport(agent, report, valid, now) => SubmitLeaves(f, s, agent, report, valid, now);
    case Proceeds(lane, now, call) => if lane in s.threads { ActiveEndsByProceed(f, s, lane, now, call, id, r); }
    case _ =>
  }

  lemma ActiveEndsByProceed(f: Flavour, s: System, lane: LaneId, now: int, call: nat, id: LaneId, r: Report)
    requires Inv(f, s) && lane in s.threads && id in s.d.table && LaneAt(s.d, id).active == Some(r)
    ensures LaneAt(Proceed(f, s, lane, now, call).d, id).active != Some(r) ==>
              && lane == id
              && (s.threads[id] == Clearing(r) || (s.threads[id] == Releasing(r) && LaneAt(s.d, id).quarantined))
  {
    hide Inv, Persist, LaneOrdered;
    LaneOfThread(f, s, lane);
    match s.threads[lane]
    case Persisting(q) => PersistKeepsLanes(f, s.d, LaneAt(s.d, lane).agent, q, now);
    case LatePersisting(q) => PersistKeepsLanes(f, s.d, LaneAt(s.d, lane).agent, q, now);
    case _ =>
  }

  /** A plugin report whose call failed in time, and a discovery report unless it was rejected, is called again: after
      the pause the lane still has it as its active one, and a new call with it is in flight. */
  lemma FailedCallIsRepeated(f: Flavour, s: System, id: LaneId, r: Report, c: nat, outcome: Outcome, now: int,
                             call: nat)
    requires Inv(f, s) && id in s.threads && s.threads[id] == Delivering(r, c) && Answers(s.calls, c, id, r, outcome)
    requires !outcome.Done? && !(f.Discovery? && outcome.Rejected?) && call !in s.calls
    ensures var s' := Proceed(f, Proceed(f, Proceed(f, s, id, now, call), id, now, call), id, now, call);
            && id in s'.threads && s'.threads[id] == Delivering(r, call)
               && s'.calls == s.calls[call := Call(id, r, None)]
            && LaneAt(s'.d, id).active == Some(r) && s'.d.last == s.d.last
  {
    hide Inv, LaneOrdered;
    LaneOfThread(f, s, id);
    var s1 := Proceed(f, s, id, now, call);
    assert s1 == Go(s, id, LaneAt(s.d, id), Backoff(r));
    var s2 := Proceed(f, s1, id, now, call);
    assert s2 == Go(s1, id, LaneAt(s1.d, id), Calling(r));
  }

  // ---- What is remembered of a good result ---------------------------------------------------

  predicate NoRepeats(order: seq<Agent>) {
    forall i, j :: 0 <= i < j < |order| ==> order[i] != order[j]
  }

  ghost predicate ListsKeys(order: seq<Agent>, last: map<Agent, Record>) {
    NoRepeats(order) && forall a :: a in order <==> a in last
  }

  /** The discovery dispatcher lists the agents it remembers, once each, and not more than it may. */
  ghost predicate BookInv(d: Dispatcher) {
    ListsKeys(d.order, d.last) && |d.order| <= d.maximum
  }

  /** Of a list without repeats the oldest go and the others stay. */
  lemma DroppedOrStays(order: seq<Agent>, maximum: nat, i: nat)
    requires NoRepeats(order) && i < |order|
    ensures order[i] in Dropped(order, maximum) <==> i < Surplus(order, maximum)
    ensures order[i] in order[Surplus(order, maximum)..] <==> i >= Surplus(order, maximum)
  {
    var n := Surplus(order, maximum);
    if i >= n { assert order[n..][i - n] == order[i]; }
  }

  lemma TrimKeepsBook(d: Dispatcher, order: seq<Agent>, last: map<Agent, Record>)
    requires ListsKeys(order, last)
    ensures var n := Surplus(order, d.maximum);
            && ListsKeys(order[n..], Remembered(Discovery, d, last, Dropped(order, d.maximum)))
            && |order[n..]| <= d.maximum
  {
    hide Dropped;
    var n := Surplus(order, d.maximum);
    var last' := Remembered(Discovery, d, last, Dropped(order, d.maximum));
    forall a ensures a in order[n..] <==> a in last' {
      if a in order {
        var i :| 0 <= i < |order| && order[i] == a;
        DroppedOrStays(order, d.maximum, i);
      } else {
        assert a !in order[n..];
      }
    }
  }

  lemma PersistKeepsBook(d: Dispatcher, agent: Agent, r: Report, now: int)
    requires BookInv(d)
    ensures var d' := PersistDiscovery(d, agent, r, now);
            && BookInv(d') && d'.maximum == d.maximum
            && (d.maximum > 0 && Ahead(r, d.last, agent) ==> agent in d'.last && d'.last[agent].report == r)
  {
    hide Dropped, Remembered, ListsKeys;
    var order := if agent in d.last then d.order else d.order + [agent];
    var last := d.last[agent := Record(r, now)];
    AddKeepsList(d, agent, Record(r, now));
    TrimKeepsBook(d, order, last);
    if d.maximum > 0 { AddedStays(d, agent, order, last); }
  }

  lemma AddKeepsList(d: Dispatcher, agent: Agent, record: Record)
    requires BookInv(d)
    ensures ListsKeys(if agent in d.last then d.order else d.order + [agent], d.last[agent := record])
  {
  }

  lemma AddedStays(d: Dispatcher, agent: Agent, order: seq<Agent>, last: map<Agent, Record>)
    requires ListsKeys(order, last) && agent in last && d.maximum > 0
    requires |order| <= d.maximum || order[|order| - 1] == agent
    ensures var last' := Remembered(Discovery, d, last, Dropped(order, d.maximum));
            agent in last' && last'[agent] == last[agent]
  {
    hide Dropped;
    if |order| <= d.maximum {
      assert Dropped(order, d.maximum) == {} by { NothingDropped(order, d.maximum); }
    } else {
      DroppedOrStays(order, d.maximum, |order| - 1);
    }
  }

  lemma NothingDropped(order: seq<Agent>, maximum: nat)
    requires |order| <= maximum
    ensures Dropped(order, maximum) == {}
  {
  }

  /** In every run the discovery dispatcher lists the agents it remembers, once each, and at most its maximum. */
  lemma {:induction false} RunsKeepBook(maximum: nat, refresh: int, actions: seq<Action>)
    ensures var s := Run(Discovery, Fresh(maximum, refresh), actions);
            Inv(Discovery, s) && BookInv(s.d) && s.d.maximum == maximum
  {
    hide Inv, Step, BookInv;
    if actions == [] {
      FreshInv(Discovery, maximum, refresh);
      FreshBook(maximum, refresh);
    } else {
      var front := actions[..|actions| - 1];
      RunsKeepBook(maximum, refresh, front);
      var before, a := Run(Discovery, Fresh(maximum, refresh), front), actions[|actions| - 1];
      StepKeepsInv(Discovery, before, a);
      StepKeepsBook(before, a);
    }
  }

  lemma FreshBook(maximum: nat, refresh: int)
    ensures BookInv(Fresh(maximum, refresh).d)
  {
  }

  lemma StepKeepsBook(s: System, a: Action)
    requires Inv(Discovery, s) && BookInv(s.d)
    ensures BookInv(Step(Discovery, s, a).d) && Step(Discovery, s, a).d.maximum == s.d.maximum
  {
    hide CallInv, AttendInv, ThreadInv, OrderInv, RegistryInv, Proceed, SubmitStep, PersistDiscovery;
    match a
    case SubmitReport(submitter, report, valid, now) => SubmitLeaves(Discovery, s, submitter, report, valid, now);
    case Proceeds(id, now, call) =>
      if id in s.threads {
        if s.threads[id].Persisting? || s.threads[id].LatePersisting? {
          PersistKeepsBook(s.d, LaneAt(s.d, id).agent, s.threads[id].report, now);
          PersistsByProceed(Discovery, s, id, now, call);
        } else {
          ProceedLeavesRecords(Discovery, s, id, now, call);
        }
      }
    case _ =>
  }

  lemma PersistsByProceed(f: Flavour, s: System, id: LaneId, now: int, call: nat)
    requires id in s.threads && (s.threads[id].Persisting? || s.threads[id].LatePersisting?)
    ensures Proceed(f, s, id, now, call).d == Persist(f, s.d, LaneAt(s.d, id).agent, s.threads[id].report, now)
  {
  }

  /** In every run of either dispatcher: once a good result, in time or late, has been dealt with, its report is what is
      remembered of the agent, by the plugin dispatcher with the time. */
  lemma GoodResultIsRemembered(f: Flavour, maximum: nat, refresh: int, actions: seq<Action>, id: LaneId, r: Report,
                               now: int, call: nat)
    requires id in Run(f, Fresh(maximum, refresh), actions).threads
    requires Run(f, Fresh(maximum, refresh), actions).threads[id] in {Persisting(r), LatePersisting(r)}
    ensures var s := Run(f, Fresh(maximum, refresh), actions);
            var last, agent := Step(f, s, Proceeds(id, now, call)).d.last, LaneAt(s.d, id).agent;
            agent in last && last[agent].report == r && (f.Plugin? ==> last[agent].deliveredAt == now)
  {
    hide Inv, Run, Proceed, PersistDiscovery, PersistPlugin, BookInv;
    var s := Run(f, Fresh(maximum, refresh), actions);
    RunsKeepEarned(f, maximum, refresh, actions);
    ActiveIsAhead(f, s, id, r);
    PersistsByProceed(f, s, id, now, call);
    if f.Discovery? {
      RunsKeepBook(maximum, refresh, actions);
      PersistKeepsBook(s.d, LaneAt(s.d, id).agent, r, now);
    } else {
      PluginRemembers(s.d, LaneAt(s.d, id).agent, r, now);
    }
  }

  lemma ActiveIsAhead(f: Flavour, s: System, id: LaneId, r: Report)
    requires Inv(f, s) && id in s.threads && s.threads[id] in {Persisting(r), LatePersisting(r)}
    ensures Ahead(r, s.d.last, LaneAt(s.d, id).agent) && LaneAt(s.d, id).agent in s.d.lanes && s.d.maximum > 0
  {
    hide CallInv, AttendInv, LaneOrdered;
    LaneOfThread(f, s, id);
    PersistIsAhead(s.d, id, r);
    assert s.d.lanes != map[];
  }

  lemma PluginRemembers(d: Dispatcher, agent: Agent, r: Report, now: int)
    requires agent in d.lanes
    ensures var last := PersistPlugin(d, agent, r, now).last;
            agent in last && last[agent] == Record(r, now)
  {
    hide Without, Dropped, Surplus;
  }

  /** At most so many agents are listed as remembered. */
  function Listed(f: Flavour, d: Dispatcher): nat {
    if f.Plugin? then 4 * d.maximum else d.maximum
  }

  /** The agents in the order in which they were persisted, this one included; the discovery dispatcher leaves one that
      is remembered where it is. */
  function Ranked(f: Flavour, d: Dispatcher, agent: Agent): seq<Agent> {
    if f.Plugin? then Without(d.order, agent) + [agent] else if agent in d.last then d.order else d.order + [agent]
  }

  /** The agent is so far from the end of the list that it does not fit any more. */
  ghost predicate Outranked(f: Flavour, d: Dispatcher, agent: Agent, b: Agent) {
    exists i ::
      0 <= i < |Ranked(f, d, agent)| && Ranked(f, d, agent)[i] == b && |Ranked(f, d, agent)| - i > Listed(f, d)
  }

  /** An agent is forgotten only when so many have been persisted after it, and by the plugin dispatcher only when it
      has no lane; and the list never gets longer than that. */
  lemma OnlyOldestAreForgotten(f: Flavour, d: Dispatcher, agent: Agent, r: Report, now: int, b: Agent)
    ensures var d' := Persist(f, d, agent, r, now);
            && (d'.order == d.order || |d'.order| <= Listed(f, d))
            && (b in d.last && b !in d'.last ==> Outranked(f, d, agent, b) && (f.Plugin? ==> b !in d.lanes))
  {
    hide Without;
    var d', order := Persist(f, d, agent, r, now), Ranked(f, d, agent);
    if b in d.last && b !in d'.last {
      assert b in Dropped(order, Listed(f, d));
      var i :| 0 <= i < Surplus(order, Listed(f, d)) && order[i] == b;
      assert Outranked(f, d, agent, b);
    }
  }

  /** A result in time leads to persisting exactly when it is good, and a late one too. */
  lemma OnlyGoodResultsPersist(f: Flavour, s: System, id: LaneId, r: Report, c: nat, outcome: Outcome, now: int,
                               call: nat)
    requires id in s.threads && s.threads[id] in {Delivering(r, c), Awaiting(r, c)}
             && Answers(s.calls, c, id, r, outcome)
    ensures var s' := Proceed(f, s, id, now, call);
            && id in s'.threads
            && (s'.threads[id] in {Persisting(r), LatePersisting(r)} <==> outcome.Done?)
            && (s'.threads[id] == Releasing(r) <==> s.threads[id].Awaiting? && !outcome.Done?)
  {
  }
}
