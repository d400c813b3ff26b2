/** One lane of the host observation dispatcher (backend/internal/agentcontrol/host_observer.go).

    A lane holds at most one pending event and at most one running sink call per agent.  The functions
    below give each critical section of the lane's mutex as a step on a `Lane` value; the class at the
    end of the file is the lane as the dispatcher runs it, field by field, and every method is proved
    to perform exactly the corresponding step.

    Clock readings are parameters, and a zero retry time is `None`. */
module HostLane {
  import opened Wrappers

  datatype Kind = Observation | Hello | Heartbeat

  datatype Report = Report(revision: nat, hostID: string)

  datatype Event = Event(agent: string, at: int, observation: Option<Report>)

  datatype Pending = Pending(event: Event, retryAt: Option<int>)

  datatype Attempt = Attempt(event: Event, timedOut: bool)

  datatype Stats = Stats(
    accepted: nat, coalesced: nat, rejectedNewKeys: nat,
    delivered: nat, failed: nat, retried: nat, discarded: nat)

  datatype Lane = Lane(
    kind: Kind, maximumPending: nat, retryBackoff: nat,
    pending: map<string, Pending>, queue: seq<string>, active: map<string, Attempt>,
    started: bool, accepting: bool, closing: bool, aborted: bool, wake: bool,
    stats: Stats)

  datatype SubmitOutcome = Accepted | Closed | Capacity

  datatype NextOutcome = Finish | Deliver(event: Event) | Wait(delay: int)

  const NO_STATS := Stats(0, 0, 0, 0, 0, 0, 0)

  // ---- Merging -------------------------------------------------------------------------------

  /** What a lane compares: observation revisions, or the time of a hello or heartbeat. */
  function Rank(kind: Kind, e: Event): int {
    if kind.Observation? then (if e.observation.Some? then e.observation.value.revision else -1)
    else e.at
  }

  /** An observation lane only ever carries events that hold an observation. */
  predicate Fits(kind: Kind, e: Event) {
    e.agent != "" && (kind.Observation? ==> e.observation.Some?)
  }

  function Merge(kind: Kind, first: Event, second: Event): (merged: Event)
    ensures Fits(kind, first) && Fits(kind, second) ==>
              merged == if Rank(kind, second) > Rank(kind, first) then second else first
  {
    if kind.Observation? then
      if first.observation.None?
         || (second.observation.Some? && second.observation.value.revision > first.observation.value.revision)
      then second
      else first
    else if second.at > first.at then second
    else first
  }

  // ---- The steps -----------------------------------------------------------------------------

  /** How many agents occupy the lane: one that is both pending and active takes one place. */
  function Occupancy(pending: map<string, Pending>, active: map<string, Attempt>): nat {
    Size(pending.Keys + active.Keys)
  }

  function Size(agents: set<string>): nat {
    |agents|
  }

  function Push(queue: seq<string>, agent: string): seq<string> {
    if agent in queue then queue else queue + [agent]
  }

  /** The event a submission leaves pending: what is held already, merged with the new event. */
  function Coalesced(l: Lane, e: Event): Event {
    if e.agent in l.pending then Merge(l.kind, l.pending[e.agent].event, e)
    else if e.agent in l.active then Merge(l.kind, l.active[e.agent].event, e)
    else e
  }

  predicate Full(l: Lane, agent: string) {
    agent !in l.pending && agent !in l.active && Occupancy(l.pending, l.active) >= l.maximumPending
  }

  function Submit(l: Lane, e: Event): (Lane, SubmitOutcome) {
    if !l.started || !l.accepting then (l, Closed)
    else if Full(l, e.agent) then
      (l.(stats := l.stats.(rejectedNewKeys := l.stats.rejectedNewKeys + 1)), Capacity)
    else
      var again := if e.agent in l.pending || e.agent in l.active then 1 else 0;
      var event := Coalesced(l, e);
      (l.(pending := l.pending[event.agent := Pending(event, None)],
          queue := if e.agent in l.active then l.queue else Push(l.queue, event.agent),
          stats := l.stats.(accepted := l.stats.accepted + 1, coalesced := l.stats.coalesced + again),
          wake := true),
       Accepted)
  }

  /** A queue entry that still stands for work: pending and not being delivered. */
  predicate Ready(l: Lane, agent: string) {
    agent in l.pending && agent !in l.active
  }

  predicate Due(l: Lane, agent: string, now: int) {
    Ready(l, agent) && (l.pending[agent].retryAt.None? || l.pending[agent].retryAt.value <= now)
  }

  /** Position of the first due entry, or the length of the queue when nothing is due. */
  function FirstDue(l: Lane, q: seq<string>, now: int): (i: nat)
    ensures i <= |q|
    ensures i < |q| ==> Due(l, q[i], now)
    ensures forall j :: 0 <= j < i ==> !Due(l, q[j], now)
  {
    if q == [] then 0 else if Due(l, q[0], now) then 0 else 1 + FirstDue(l, q[1..], now)
  }

  /** The entries a scan puts back at the end of the queue, in order. */
  function Kept(l: Lane, q: seq<string>): seq<string> {
    if q == [] then []
    else Kept(l, q[..|q|-1]) + (if Ready(l, q[|q|-1]) then [q[|q|-1]] else [])
  }

  /** The earliest retry time among the ready entries of a queue. */
  function Earliest(l: Lane, q: seq<string>): Option<int> {
    if q == [] then None
    else
      var before := Earliest(l, q[..|q|-1]);
      var a := q[|q|-1];
      if !Ready(l, a) || l.pending[a].retryAt.None? then before
      else if before.None? || l.pending[a].retryAt.value < before.value then l.pending[a].retryAt
      else before
  }

  /** One pass of the worker over the queue.  `now` is the reading the pass compares with; `later` is the
      second reading, taken when the remaining delay is computed. */
  function Next(l: Lane, now: int, later: int): (Lane, NextOutcome) {
    if l.aborted then (l, Finish)
    else
      var i := FirstDue(l, l.queue, now);
      if i < |l.queue| then
        var agent := l.queue[i];
        var event := l.pending[agent].event;
        var queue := l.queue[i+1..] + Kept(l, l.queue[..i]);
        (l.(queue := queue,
            pending := l.pending - {agent}, active := l.active[agent := Attempt(event, false)]),
         Deliver(event))
      else
        var queue := Kept(l, l.queue);
        var l1 := l.(queue := queue);
        if l.closing && |l.pending| == 0 && |l.active| == 0 then (l1, Finish)
        else
          var earliest := Earliest(l, l.queue);
          (l1, Wait(if earliest.Some? then earliest.value - later else 0))
  }

  /** What a failed attempt leaves behind: its event, merged with one that arrived meanwhile. */
  function Leftover(l: Lane, agent: string, event: Event): Event {
    if agent in l.pending then Merge(l.kind, event, l.pending[agent].event) else event
  }

  function Timeout(l: Lane, event: Event, now: int): Lane {
    if l.aborted || event.agent !in l.active || l.active[event.agent].timedOut then l
    else
      var merged := Leftover(l, event.agent, event);
      l.(active := l.active[event.agent := l.active[event.agent].(timedOut := true)],
         pending := l.pending[merged.agent := Pending(merged, Some(now + l.retryBackoff))],
         stats := l.stats.(failed := l.stats.failed + 1, retried := l.stats.retried + 1),
         wake := true)
  }

  /** Whether a result makes the lane put the attempt's event back. */
  predicate PutsBack(attempt: Attempt, ok: bool) {
    !attempt.timedOut && !ok
  }

  /** What is pending once a sink result has been accounted for. */
  function PendingAfter(l: Lane, agent: string, ok: bool, now: int): map<string, Pending>
    requires agent in l.active
  {
    if PutsBack(l.active[agent], ok)
    then l.pending[agent := Pending(Leftover(l, agent, l.active[agent].event), Some(now + l.retryBackoff))]
    else l.pending
  }

  function StatsAfter(stats: Stats, attempt: Attempt, ok: bool): Stats {
    if attempt.timedOut then stats
    else if ok then stats.(delivered := stats.delivered + 1)
    else stats.(failed := stats.failed + 1, retried := stats.retried + 1)
  }

  function Complete(l: Lane, agent: string, ok: bool, now: int): Lane {
    if l.aborted || agent !in l.active then l
    else
      var pending := PendingAfter(l, agent, ok, now);
      l.(active := l.active - {agent},
         pending := pending,
         queue := if agent in pending then Push(l.queue, agent) else l.queue,
         stats := StatsAfter(l.stats, l.active[agent], ok),
         wake := true)
  }

  function BeginClose(l: Lane): Lane {
    l.(accepting := false, closing := true, wake := true)
  }

  function Abort(l: Lane): Lane {
    if l.aborted then l
    else
      l.(accepting := false, aborted := true, pending := map[], active := map[], queue := [],
         stats := l.stats.(discarded := l.stats.discarded + Occupancy(l.pending, l.active)))
  }

  // ---- The queue invariant -------------------------------------------------------------------

  predicate NoRepeats(q: seq<string>) {
    forall i, j :: 0 <= i < j < |q| ==> q[i] != q[j]
  }


  /** `q` lists the members of `s`, once each. */
  ghost predicate Lists(q: seq<string>, s: set<string>) {
    NoRepeats(q) && forall a :: a in q <==> a in s
  }

  /** The queue lists, once each, exactly the agents that are pending and not being delivered. */
  ghost predicate QueueInv(l: Lane) {
    && Lists(l.queue, l.pending.Keys - l.active.Keys)
    && EntriesInv(l)
  }

  /** Entries are filed under their own agent, and an attempt that timed out has left its event pending. */
  ghost predicate EntriesInv(l: Lane) {
    && (forall a :: a in l.pending ==> l.pending[a].event.agent == a && Fits(l.kind, l.pending[a].event))
    && (forall a :: a in l.active ==> l.active[a].event.agent == a && Fits(l.kind, l.active[a].event))
    && (forall a :: a in l.active && l.active[a].timedOut ==> a in l.pending)
    && (l.aborted ==> !l.accepting && l.pending == map[] && l.active == map[])
  }

  lemma {:induction false} KeptIsEverything(l: Lane, q: seq<string>)
    requires forall a :: a in q ==> Ready(l, a)
    ensures Kept(l, q) == q
  {
    if q != [] {
      KeptIsEverything(l, q[..|q|-1]);
      assert q == q[..|q|-1] + [q[|q|-1]];
    }
  }

  lemma ListsMember(q: seq<string>, s: set<string>, a: string)
    requires Lists(q, s)
    ensures a in q <==> a in s
  {
  }

  lemma ListsAppend(q: seq<string>, s: set<string>, a: string)
    requires Lists(q, s) && a !in s
    ensures Lists(q + [a], s + {a})
  {
  }

  lemma ListsPop(q: seq<string>, s: set<string>)
    requires Lists(q, s) && q != []
    ensures Lists(q[1..], s - {q[0]})
  {
    forall a | a in s - {q[0]} ensures a in q[1..] {
      var k :| 0 <= k < |q| && q[k] == a;
      assert q[1..][k-1] == a;
    }
  }

  lemma ListsRotation(q: seq<string>, s: set<string>, i: nat)
    requires Lists(q, s) && i < |q|
    ensures Lists(q[i+1..] + q[..i], s - {q[i]})
  {
    forall a | a in q && a != q[i] ensures a in q[i+1..] + q[..i] {
      var k :| 0 <= k < |q| && q[k] == a;
      if k < i { assert q[..i][k] == a; } else { assert q[i+1..][k-i-1] == a; }
    }
  }

  /** How one more entry extends what a scan has kept and the earliest retry time it has seen. */
  lemma ScanStep(l: Lane, q: seq<string>, i: nat)
    requires i < |q|
    ensures Kept(l, q[..i+1]) == Kept(l, q[..i]) + (if Ready(l, q[i]) then [q[i]] else [])
    ensures Earliest(l, q[..i+1]) ==
              var before := Earliest(l, q[..i]);
              if !Ready(l, q[i]) || l.pending[q[i]].retryAt.None? then before
              else if before.None? || l.pending[q[i]].retryAt.value < before.value then l.pending[q[i]].retryAt
              else before
  {
    assert q[..i+1][..i] == q[..i];
  }

  lemma {:induction false} FirstDueIs(l: Lane, q: seq<string>, now: int, i: nat)
    requires i <= |q| && (i < |q| ==> Due(l, q[i], now))
    requires forall j :: 0 <= j < i ==> !Due(l, q[j], now)
    ensures FirstDue(l, q, now) == i
  {
    hide Due;
  }

  lemma ScanEmpty(l: Lane)
    ensures Kept(l, []) == [] && Earliest(l, []) == None
  {
  }

  /** What the branches of the scan say about the entry at position `i`. */
  lemma ScanEntry(l: Lane, i: nat, now: int)
    requires i < |l.queue|
    ensures var a := l.queue[i];
            if a !in l.pending || a in l.active then
              && !Due(l, a, now)
              && Kept(l, l.queue[..i+1]) == Kept(l, l.queue[..i])
              && Earliest(l, l.queue[..i+1]) == Earliest(l, l.queue[..i])
            else if l.pending[a].retryAt.Some? && l.pending[a].retryAt.value > now then
              var before := Earliest(l, l.queue[..i]);
              && !Due(l, a, now)
              && Kept(l, l.queue[..i+1]) == Kept(l, l.queue[..i]) + [a]
              && Earliest(l, l.queue[..i+1]) ==
                   if before.None? || l.pending[a].retryAt.value < before.value then l.pending[a].retryAt else before
            else
              Due(l, a, now)
  {
    ScanStep(l, l.queue, i);
  }

  lemma QueueIsReady(l: Lane)
    requires QueueInv(l)
    ensures forall q :: q <= l.queue ==> Kept(l, q) == q
  {
    forall q | q <= l.queue ensures Kept(l, q) == q {
      forall a | a in q ensures Ready(l, a) {
        assert a in l.queue;
      }
      KeptIsEverything(l, q);
    }
  }

  /** A pass over the queue is a rotation: it takes the first due agent out and keeps the others in cyclic
      order; when nothing is due the queue is as before. */
  lemma NextRotates(l: Lane, now: int, later: int)
    requires QueueInv(l) && !l.aborted
    ensures var (l', outcome) := Next(l, now, later);
            var i := FirstDue(l, l.queue, now);
            if i < |l.queue| then
              && outcome == Deliver(l.pending[l.queue[i]].event)
              && l' == l.(queue := l.queue[i+1..] + l.queue[..i],
                          active := l.active[l.queue[i] := Attempt(l.pending[l.queue[i]].event, false)],
                          pending := l.pending - {l.queue[i]})
            else
              && l' == l
              && (outcome == Finish <==> l.closing && l.pending == map[] && l.active == map[])
              && (forall a :: a in l.pending && a !in l.active ==> !Due(l, a, now))
  {
    hide NoRepeats, Earliest;
    QueueIsReady(l);
    var i := FirstDue(l, l.queue, now);
    assert l.queue[..i] <= l.queue;
    if i == |l.queue| {
      assert l.queue[..i] == l.queue;
      forall a | a in l.pending && a !in l.active ensures !Due(l, a, now) {
        assert a in l.queue;
      }
    }
  }

  lemma PushLists(q: seq<string>, s: set<string>, a: string)
    requires Lists(q, s)
    ensures Lists(Push(q, a), s + {a})
  {
    hide Lists;
    ListsMember(q, s, a);
    if a in s { assert s + {a} == s; } else { ListsAppend(q, s, a); }
  }

  lemma CoalescedFits(l: Lane, e: Event)
    requires EntriesInv(l) && Fits(l.kind, e)
    ensures Coalesced(l, e).agent == e.agent && Fits(l.kind, Coalesced(l, e))
  {
  }

  lemma LeftoverFits(l: Lane, e: Event)
    requires EntriesInv(l) && Fits(l.kind, e)
    ensures Leftover(l, e.agent, e).agent == e.agent && Fits(l.kind, Leftover(l, e.agent, e))
  {
  }

  lemma SubmitKeepsQueue(l: Lane, e: Event)
    requires QueueInv(l) && Fits(l.kind, e)
    ensures QueueInv(Submit(l, e).0)
  {
    hide Occupancy, Lists, Push, Coalesced, Fits;
    var (l', outcome) := Submit(l, e);
    if outcome == Accepted {
      CoalescedFits(l, e);
      var free := l.pending.Keys - l.active.Keys;
      if e.agent in l.active {
        assert l'.pending.Keys - l'.active.Keys == free;
      } else {
        PushLists(l.queue, free, e.agent);
        assert l'.pending.Keys - l'.active.Keys == free + {e.agent};
      }
    }
  }

  lemma NextKeepsQueue(l: Lane, now: int, later: int)
    requires QueueInv(l)
    ensures QueueInv(Next(l, now, later).0)
  {
    hide Lists, Kept, Earliest;
    if !l.aborted {
      NextRotates(l, now, later);
      var i := FirstDue(l, l.queue, now);
      if i < |l.queue| {
        var agent := l.queue[i];
        ListsMember(l.queue, l.pending.Keys - l.active.Keys, agent);
        ListsRotation(l.queue, l.pending.Keys - l.active.Keys, i);
        assert (l.pending - {agent}).Keys - l.active[agent := Attempt(l.pending[agent].event, false)].Keys
            == l.pending.Keys - l.active.Keys - {agent};
      }
    }
  }

  lemma TimeoutKeepsQueue(l: Lane, e: Event, now: int)
    requires QueueInv(l) && Fits(l.kind, e)
    ensures QueueInv(Timeout(l, e, now))
  {
    hide Lists, Leftover, Fits;
    LeftoverFits(l, e);
    var l' := Timeout(l, e, now);
    assert l'.pending.Keys - l'.active.Keys == l.pending.Keys - l.active.Keys;
  }

  lemma CompleteKeepsQueue(l: Lane, agent: string, ok: bool, now: int)
    requires QueueInv(l)
    ensures QueueInv(Complete(l, agent, ok, now))
  {
    hide Lists, Leftover, Push, Fits;
    if !l.aborted && agent in l.active {
      LeftoverFits(l, l.active[agent].event);
      var l' := Complete(l, agent, ok, now);
      var free := l.pending.Keys - l.active.Keys;
      PushLists(l.queue, free, agent);
      if agent in l'.pending {
        assert l'.pending.Keys - l'.active.Keys == free + {agent};
      } else {
        assert l'.pending.Keys - l'.active.Keys == free;
      }
    }
  }

  // ---- What a submission is answered ---------------------------------------------------------

  /** The lane has been started and still takes submissions. */
  predicate Accepting(l: Lane) {
    l.started && l.accepting
  }

  /** A place for the agent: it has one already, or the agents that are pending or being delivered are fewer than the
      maximum. */
  predicate HasPlace(l: Lane, agent: string) {
    agent in l.pending.Keys + l.active.Keys || |l.pending.Keys + l.active.Keys| < l.maximumPending
  }

  /** A submission is refused as closed exactly by a lane that does not accept, for want of capacity exactly by an
      accepting lane without a place for its agent, and accepted otherwise.  A refused one changes nothing but a
      counter; an accepted one waits, due at once and queued unless its agent is being delivered, and changes nothing of
      other agents. */
  lemma SubmitIsExact(l: Lane, e: Event)
    requires QueueInv(l) && Fits(l.kind, e)
    ensures var (l', answer) := Submit(l, e);
            && (answer == Closed <==> !Accepting(l))
            && (answer == Capacity <==> Accepting(l) && !HasPlace(l, e.agent))
            && (answer == Accepted <==> Accepting(l) && HasPlace(l, e.agent))
            && (answer != Accepted ==> l' == l.(stats := l'.stats))
            && l'.active == l.active && (forall a :: a != e.agent ==> (a in l'.pending <==> a in l.pending))
            && (forall a :: a != e.agent && a in l.pending ==> l'.pending[a] == l.pending[a])
            && (answer == Accepted ==> e.agent in l'.pending && l'.wake)
            && (answer == Accepted && e.agent !in l.active ==>
                  e.agent in l'.queue && forall now :: Due(l', e.agent, now))
  {
    hide Submit, QueueInv, HasPlace, Accepting, Due;
    SubmitAnswers(l, e);
    if Submit(l, e).1 == Accepted { SubmitFiles(l, e); }
  }

  lemma SubmitAnswers(l: Lane, e: Event)
    ensures var (l', answer) := Submit(l, e);
            && (answer == Closed <==> !Accepting(l))
            && (answer == Capacity <==> Accepting(l) && !HasPlace(l, e.agent))
            && (answer == Accepted <==> Accepting(l) && HasPlace(l, e.agent))
            && (answer != Accepted ==> l' == l.(stats := l'.stats))
  {
    hide Coalesced, Push;
  }

  lemma SubmitFiles(l: Lane, e: Event)
    requires QueueInv(l) && Fits(l.kind, e) && Submit(l, e).1 == Accepted
    ensures var l' := Submit(l, e).0;
            && l'.active == l.active && e.agent in l'.pending && l'.pending == l.pending[e.agent := l'.pending[e.agent]]
            && l'.wake && (e.agent !in l.active ==> e.agent in l'.queue && forall now :: Due(l', e.agent, now))
  {
    hide Coalesced, Lists, Occupancy;
    CoalescedAgent(l, e);
  }

  lemma CoalescedAgent(l: Lane, e: Event)
    requires EntriesInv(l) && Fits(l.kind, e)
    ensures Coalesced(l, e).agent == e.agent
  {
  }

  // ---- Retries -------------------------------------------------------------------------------

  /** After a failure an agent comes up again exactly when the back-off is over; after a timeout the back-off counts
      from the timeout, whatever the late result is and whenever it comes. */
  lemma FailuresBackOff(l: Lane, agent: string, ok: bool, failed: int, returned: int, later: int)
    requires QueueInv(l) && !l.aborted && agent in l.active && !l.active[agent].timedOut
    ensures Due(Complete(l, agent, false, failed), agent, later) <==> later >= failed + l.retryBackoff
    ensures var late := Complete(Timeout(l, l.active[agent].event, failed), agent, ok, returned);
            Due(late, agent, later) <==> later >= failed + l.retryBackoff
  {
    hide NoRepeats, Lists, Occupancy;
    assert Leftover(l, agent, l.active[agent].event).agent == agent;
  }

  // ---- The lane as the dispatcher runs it ----------------------------------------------------

  /** A pass that selects an agent delivers its event. */
  lemma NextDelivers(l: Lane, now: int, later: int, agent: string)
    requires !l.aborted && FirstDue(l, l.queue, now) < |l.queue| && l.queue[FirstDue(l, l.queue, now)] == agent
    requires agent in l.pending
    ensures var i, event := FirstDue(l, l.queue, now), l.pending[agent].event;
            Next(l, now, later) ==
              (l.(queue := l.queue[i+1..] + Kept(l, l.queue[..i]),
                  pending := l.pending - {agent}, active := l.active[agent := Attempt(event, false)]),
               Deliver(event))
  {
    hide FirstDue, Kept;
  }

  /** A pass that selects none is the last one of a closing, empty lane, or waits for the earliest retry. */
  lemma NextRests(l: Lane, now: int, later: int)
    requires !l.aborted && FirstDue(l, l.queue, now) == |l.queue|
    ensures Next(l, now, later).0 == l.(queue := Kept(l, l.queue))
    ensures Next(l, now, later).1 ==
              if l.closing && |l.pending| == 0 && |l.active| == 0 then Finish
              else Wait(if Earliest(l, l.queue).Some? then Earliest(l, l.queue).value - later else 0)
  {
    hide FirstDue, Kept, Earliest;
  }

  lemma OneMore(agents: set<string>, seen: set<string>, agent: string)
    requires agent !in seen
    ensures |agents + (seen + {agent})| == |agents + seen| + if agent in agents then 0 else 1
  {
    if agent in agents {
      assert agents + (seen + {agent}) == agents + seen;
    } else {
      assert agents + (seen + {agent}) == (agents + seen) + {agent};
    }
  }

  class HostObservationLane {
    const kind: Kind
    const maximumPending: nat
    const retryBackoff: nat
    var pending: map<string, Pending>
    var queue: seq<string>
    var queued: set<string>
    var active: map<string, Attempt>
    var started: bool
    var accepting: bool
    var closing: bool
    var aborted: bool
    var wake: bool
    var stats: Stats

    /** `queued` marks exactly the agents in the queue, which has no repeats. */
    ghost predicate Valid()
      reads this
    {
      Lists(queue, queued)
    }

    ghost function View(): Lane
      reads this
    {
      Lane(kind, maximumPending, retryBackoff, pending, queue, active,
           started, accepting, closing, aborted, wake, stats)
    }

    constructor (kind: Kind, maximumPending: nat, retryBackoff: nat)
      ensures Valid()
      ensures View() == Lane(kind, maximumPending, retryBackoff, map[], [], map[],
                             false, false, false, false, false, NO_STATS)
    {
      this.kind, this.maximumPending, this.retryBackoff := kind, maximumPending, retryBackoff;
      pending, queue, queued, active := map[], [], {}, map[];
      started, accepting, closing, aborted, wake := false, false, false, false, false;
      stats := NO_STATS;
    }

    method Start()
      requires Valid()
      modifies this`started, this`accepting
      ensures Valid() && View() == old(View()).(started := true, accepting := true)
    {
      started, accepting := true, true;
    }

    method EnqueueLocked(agent: string)
      requires Valid()
      modifies this`queue, this`queued
      ensures Valid() && queue == Push(old(queue), agent)
    {
      hide Lists;
      ListsMember(queue, queued, agent);
      if agent in queued { return; }
      ListsAppend(queue, queued, agent);
      queue := queue + [agent];
      queued := queued + {agent};
    }

    method DistinctKeysLocked() returns (count: nat)
      ensures count == Occupancy(pending, active)
    {
      count := |pending|;
      var rest := active.Keys;
      ghost var seen: set<string> := {};
      while rest != {}
        invariant rest + seen == active.Keys
        invariant rest * seen == {}
        invariant count == |pending.Keys + seen|
        decreases |rest|
      {
        var agent :| agent in rest;
        OneMore(pending.Keys, seen, agent);
        if agent !in pending { count := count + 1; }
        rest := rest - {agent};
        seen := seen + {agent};
      }
      assert seen == active.Keys;
    }

    method SubmitEvent(event: Event) returns (outcome: SubmitOutcome)
      requires Valid()
      modifies this`pending, this`queue, this`queued, this`stats, this`wake
      ensures Valid()
      ensures outcome == Submit(old(View()), event).1
      ensures View() == Submit(old(View()), event).0
    {
      hide Occupancy, Push, Merge, Lists;
      if !started || !accepting { return Closed; }
      var pendingExists, activeSameKey := event.agent in pending, event.agent in active;
      if !pendingExists && !activeSameKey {
        var count := DistinctKeysLocked();
        if count >= maximumPending {
          stats := stats.(rejectedNewKeys := stats.rejectedNewKeys + 1);
          return Capacity;
        }
      }
      var merged := event;
      if pendingExists || activeSameKey {
        stats := stats.(coalesced := stats.coalesced + 1);
      }
      if pendingExists {
        merged := Merge(kind, pending[event.agent].event, event);
      } else if activeSameKey {
        merged := Merge(kind, active[event.agent].event, event);
      }
      assert merged == Coalesced(old(View()), event);
      pending := pending[merged.agent := Pending(merged, None)];
      if !activeSameKey {
        EnqueueLocked(merged.agent);
      }
      stats := stats.(accepted := stats.accepted + 1);
      wake := true;
      return Accepted;
    }

    /** The rotating pass over the queue: drops stale entries, puts entries that are not yet due back at
        the end, and stops at the first due one. */
    method Scan(now: int) returns (selected: Option<string>, earliest: Option<int>)
      requires Valid()
      modifies this`queue, this`queued
      ensures Valid()
      ensures var l, i := old(View()), FirstDue(old(View()), old(queue), now);
              if i < |l.queue| then
                selected == Some(l.queue[i]) && queue == l.queue[i+1..] + Kept(l, l.queue[..i])
              else
                selected == None && queue == Kept(l, l.queue) && earliest == Earliest(l, l.queue)
      ensures selected.Some? ==> selected.value in pending
    {
      hide Lists, Kept, Earliest, FirstDue, Ready, Due, Push;
      selected, earliest := None, None;
      ghost var l := View();
      ghost var kept: seq<string> := [];
      var length, index := |queue|, 0;
      assert l.queue[..0] == [];
      ScanEmpty(l);
      while index < length
        invariant 0 <= index <= length == |l.queue|
        invariant Valid() && pending == l.pending && active == l.active
        invariant forall j :: 0 <= j < index ==> !Due(l, l.queue[j], now)
        invariant queue == l.queue[index..] + kept && kept == Kept(l, l.queue[..index])
        invariant earliest == Earliest(l, l.queue[..index])
      {
        var agent := queue[0];
        assert agent == l.queue[index] && queue[1..] == l.queue[index+1..] + kept;
        ListsPop(queue, queued);
        queue := queue[1..];
        queued := queued - {agent};
        ScanEntry(l, index, now);
        if agent !in pending || agent in active {
          index := index + 1;
          continue;
        }
        if pending[agent].retryAt.Some? && pending[agent].retryAt.value > now {
          PutBack(agent);
          assert l.queue[index+1..] + kept + [agent] == l.queue[index+1..] + (kept + [agent]);
          kept := kept + [agent];
          if earliest.None? || pending[agent].retryAt.value < earliest.value {
            earliest := pending[agent].retryAt;
          }
          index := index + 1;
          continue;
        }
        FirstDueIs(l, l.queue, now, index);
        selected := Some(agent);
        return;
      }
      assert l.queue[..index] == l.queue && l.queue[index..] == [];
      FirstDueIs(l, l.queue, now, index);
    }

    method PutBack(agent: string)
      requires Valid() && agent !in queued
      modifies this`queue, this`queued
      ensures Valid() && queue == old(queue) + [agent]
    {
      hide Lists;
      ListsMember(queue, queued, agent);
      EnqueueLocked(agent);
    }

    method TakeNext(now: int, later: int) returns (outcome: NextOutcome)
      requires Valid()
      modifies this`queue, this`queued, this`pending, this`active
      ensures Valid()
      ensures outcome == Next(old(View()), now, later).1
      ensures View() == Next(old(View()), now, later).0
    {
      hide Lists, Kept, Earliest, Ready, FirstDue, Due;
      ghost var l := View();
      if aborted { return Finish; }
      hide Next;
      var selected, earliest := Scan(now);
      if selected.Some? {
        NextDelivers(l, now, later, selected.value);
        var event := pending[selected.value].event;
        pending := pending - {selected.value};
        active := active[selected.value := Attempt(event, false)];
        return Deliver(event);
      }
      NextRests(l, now, later);
      if closing && |pending| == 0 && |active| == 0 { return Finish; }
      if earliest.Some? { return Wait(earliest.value - later); }
      return Wait(0);
    }

    method TimeoutDelivery(event: Event, now: int)
      requires Valid()
      modifies this`active, this`pending, this`stats, this`wake
      ensures Valid()
      ensures View() == Timeout(old(View()), event, now)
    {
      hide Merge, Lists;
      if aborted { return; }
      if event.agent !in active || active[event.agent].timedOut { return; }
      active := active[event.agent := active[event.agent].(timedOut := true)];
      var merged := event;
      if event.agent in pending {
        merged := Merge(kind, event, pending[event.agent].event);
      }
      pending := pending[merged.agent := Pending(merged, Some(now + retryBackoff))];
      stats := stats.(failed := stats.failed + 1, retried := stats.retried + 1);
      wake := true;
    }

    method CompleteDelivery(agent: string, ok: bool, now: int)
      requires Valid()
      modifies this`active, this`pending, this`queue, this`queued, this`stats, this`wake
      ensures Valid()
      ensures View() == Complete(old(View()), agent, ok, now)
    {
      hide Merge, Lists, Push;
      if aborted || agent !in active { return; }
      var attempt := active[agent];
      active := active - {agent};
      if attempt.timedOut {
        if agent in pending { EnqueueLocked(agent); }
        wake := true;
        return;
      }
      if ok {
        stats := stats.(delivered := stats.delivered + 1);
        if agent in pending { EnqueueLocked(agent); }
      } else {
        stats := stats.(failed := stats.failed + 1, retried := stats.retried + 1);
        var event := attempt.event;
        if agent in pending {
          event := Merge(kind, event, pending[agent].event);
        }
        pending := pending[agent := Pending(event, Some(now + retryBackoff))];
        EnqueueLocked(agent);
      }
      wake := true;
    }

    method Close()
      modifies this`accepting, this`closing, this`wake
      ensures View() == BeginClose(old(View()))
    {
      accepting := false;
      closing := true;
      wake := true;
    }

    method AbortLane()
      requires Valid()
      modifies this`accepting, this`aborted, this`stats, this`pending, this`active, this`queue, this`queued
      ensures Valid()
      ensures View() == Abort(old(View()))
    {
      hide Occupancy;
      if aborted { return; }
      accepting, aborted := false, true;
      var keys := DistinctKeysLocked();
      stats := stats.(discarded := stats.discarded + keys);
      pending, active := map[], map[];
      queue, queued := [], {};
    }
  }
}
