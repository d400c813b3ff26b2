/** The per-agent lanes of the plugin observation dispatcher and of the discovery dispatcher
    (backend/internal/agentcontrol/plugin_observation_dispatcher.go and discovery_observer.go).

    Both keep at most one waiting report per agent, deliver through one goroutine per lane, quarantine a lane whose
    delivery timed out until the late result arrives, and remember the last persisted revision of an
    agent.  The functions below are the sections the two dispatchers run under their mutex;
    `Flavour` says whose section it is where they differ. */
module ObservationLanes {
  import opened Wrappers

  type Agent = string
  type LaneId = nat

  datatype Flavour = Plugin | Discovery

  /** A report as the dispatcher sees it; equal digests mean equal contents. */
  datatype Report = Report(revision: nat, digest: nat)

  /** One lane object.  `active.None?` is the active revision 0 of the source; `wake` is the token in its channel. */
  datatype Lane = Lane(agent: Agent, pending: Option<Report>, active: Option<Report>, quarantined: bool, wake: bool)

  datatype Record = Record(report: Report, deliveredAt: int)

  /** `table` holds every lane object ever made, `lanes` the registered ones. */
  datatype Dispatcher = Dispatcher(
    maximum: nat, refresh: int, lanes: map<Agent, LaneId>, table: map<LaneId, Lane>, next: LaneId,
    last: map<Agent, Record>, order: seq<Agent>, closed: bool)

  datatype Answer = Accepted | Duplicate | Invalid | Capacity | Closed

  function LaneAt(d: Dispatcher, id: LaneId): Lane {
    if id in d.table then d.table[id] else Lane("", None, None, false, false)
  }

  function SetLane(d: Dispatcher, id: LaneId, l: Lane): Dispatcher {
    d.(table := d.table[id := l])
  }

  // ---- Submitting ----------------------------------------------------------------------------

  /** The report a new one is compared with. */
  function Highest(l: Lane): Option<Report> {
    if l.pending.Some? && (l.active.None? || l.pending.value.revision >= l.active.value.revision) then l.pending
    else l.active
  }

  function Open(d: Dispatcher, agent: Agent): Dispatcher {
    d.(lanes := d.lanes[agent := d.next], table := d.table[d.next := Lane(agent, None, None, false, false)],
       next := d.next + 1)
  }

  function Opened(d: Dispatcher, agent: Agent): Dispatcher {
    if agent in d.lanes then d else Open(d, agent)
  }

  /** The answer given before a lane is looked at, if any. */
  function Screen(f: Flavour, d: Dispatcher, agent: Agent, report: Report, valid: bool, now: int): Option<Answer> {
    if !valid || report.revision == 0 then Some(Invalid)
    else if d.closed then Some(Closed)
    else if agent in d.last && report.revision < d.last[agent].report.revision then Some(Invalid)
    else if agent in d.last && report.revision == d.last[agent].report.revision
      && report.digest != d.last[agent].report.digest
      then Some(Invalid)
    else if f.Plugin? && agent in d.last && report.revision == d.last[agent].report.revision
              && now - d.last[agent].deliveredAt < d.refresh then Some(Duplicate)
    else if agent !in d.lanes && |d.lanes| >= d.maximum then Some(Capacity)
    else None
  }

  /** The answer of a lane. */
  function Judge(f: Flavour, l: Lane, report: Report): Answer {
    var highest := Highest(l);
    if f.Discovery? && l.quarantined then Capacity
    else if highest.Some? && report.revision < highest.value.revision then Invalid
    else if highest.Some? && report.revision == highest.value.revision then
      if report.digest != highest.value.digest then Invalid else Duplicate
    else Accepted
  }

  function Enqueue(d: Dispatcher, id: LaneId, report: Report): Dispatcher {
    SetLane(d, id, LaneAt(d, id).(pending := Some(report), wake := true))
  }

  function Submit(f: Flavour, d: Dispatcher, agent: Agent, report: Report, valid: bool, now: int)
    : (Dispatcher, Answer)
  {
    var screened := Screen(f, d, agent, report, valid, now);
    if screened.Some? then (d, screened.value)
    else
      var ready := Opened(d, agent);
      var answer := Judge(f, LaneAt(ready, ready.lanes[agent]), report);
      if answer == Accepted then (Enqueue(ready, ready.lanes[agent], report), Accepted) else (ready, answer)
  }

  // ---- The lane's own sections ---------------------------------------------------------------

  function Take(l: Lane): (Lane, Option<Report>) {
    if l.pending.None? then (l, None) else (l.(pending := None, active := l.pending), l.pending)
  }

  predicate Retires(l: Lane) {
    l.pending.None? && l.active.None? && !l.quarantined
  }

  function Unregister(d: Dispatcher, agent: Agent): Dispatcher {
    d.(lanes := d.lanes - {agent})
  }

  /** The section a quarantine waiter runs once the late result has been dealt with. */
  function Released(l: Lane): Lane {
    l.(active := None, quarantined := false)
  }

  predicate ReleaseDrops(f: Flavour, d: Dispatcher, l: Lane) {
    l.pending.None? && (f.Plugin? || !d.closed)
  }

  // ---- Remembering what was persisted --------------------------------------------------------

  /** A list without the first occurrence of `a`. */
  function Without(order: seq<Agent>, a: Agent): seq<Agent> {
    if order == [] then [] else if order[0] == a then order[1..] else [order[0]] + Without(order[1..], a)
  }

  /** How many of the oldest entries go when only `maximum` may stay. */
  function Surplus(order: seq<Agent>, maximum: nat): nat {
    if |order| > maximum then |order| - maximum else 0
  }

  ghost function Dropped(order: seq<Agent>, maximum: nat): set<Agent> {
    set i | 0 <= i < Surplus(order, maximum) :: order[i]
  }

  /** What is remembered once `forgotten` has left the list; the plugin dispatcher spares agents that have a lane. */
  ghost function Remembered(f: Flavour, d: Dispatcher, last: map<Agent, Record>,
                            forgotten: set<Agent>): map<Agent, Record> {
    map a | a in last && (a !in forgotten || (f.Plugin? && a in d.lanes)) :: last[a]
  }

  ghost function PersistPlugin(d: Dispatcher, agent: Agent, report: Report, now: int): Dispatcher {
    var order := Without(d.order, agent) + [agent];
    var last := d.last[agent := Record(report, now)];
    d.(last := Remembered(Plugin, d, last, Dropped(order, 4 * d.maximum)),
       order := order[Surplus(order, 4 * d.maximum)..])
  }

  ghost function PersistDiscovery(d: Dispatcher, agent: Agent, report: Report, now: int): Dispatcher {
    if agent in d.last && d.last[agent].report.revision >= report.revision then d
    else
      var order := if agent in d.last then d.order else d.order + [agent];
      var last := d.last[agent := Record(report, now)];
      d.(last := Remembered(Discovery, d, last, Dropped(order, d.maximum)), order := order[Surplus(order, d.maximum)..])
  }

  ghost function Persist(f: Flavour, d: Dispatcher, agent: Agent, report: Report, now: int): Dispatcher {
    if f.Plugin? then PersistPlugin(d, agent, report, now) else PersistDiscovery(d, agent, report, now)
  }

  // ---- The dispatcher object -----------------------------------------------------------------

  /** The state both dispatchers guard with their mutex, and the sections that change it. */
  class ObservationDispatcher {
    const flavour: Flavour
    const maximum: nat
    const refresh: int
    var lanes: map<Agent, LaneId>
    var table: map<LaneId, Lane>
    var next: LaneId
    var last: map<Agent, Record>
    var order: seq<Agent>
    var closed: bool

    /** Every registered lane exists. */
    ghost predicate Valid()
      reads this
    {
      forall a :: a in lanes ==> lanes[a] in table
    }

    function View(): Dispatcher
      reads this
    {
      Dispatcher(maximum, refresh, lanes, table, next, last, order, closed)
    }

    constructor (flavour: Flavour, maximum: nat, refresh: int)
      ensures Valid() && View() == Dispatcher(maximum, refresh, map[], map[], 0, map[], [], false)
              && this.flavour == flavour
    {
      this.flavour, this.maximum, this.refresh := flavour, maximum, refresh;
      lanes, table, next, last, order, closed := map[], map[], 0, map[], [], false;
    }

    method ScreenReport(agent: Agent, report: Report, valid: bool, now: int) returns (answer: Option<Answer>)
      ensures answer == Screen(flavour, View(), agent, report, valid, now)
    {
      if !valid || report.revision == 0 { return Some(Invalid); }
      if closed { return Some(Closed); }
      if agent in last {
        var previous := last[agent];
        if report.revision < previous.report.revision { return Some(Invalid); }
        if report.revision == previous.report.revision {
          if report.digest != previous.report.digest { return Some(Invalid); }
          if flavour == Plugin && now - previous.deliveredAt < refresh { return Some(Duplicate); }
        }
      }
      if agent !in lanes && |lanes| >= maximum { return Some(Capacity); }
      answer := None;
    }

    method SubmitReport(agent: Agent, report: Report, valid: bool, now: int) returns (answer: Answer)
      requires Valid()
      modifies this`lanes, this`table, this`next
      ensures Valid() && (View(), answer) == Submit(flavour, old(View()), agent, report, valid, now)
    {
      hide Screen;
      var screened := ScreenReport(agent, report, valid, now);
      if screened.Some? { return screened.value; }
      if agent !in lanes {
        lanes, table, next := lanes[agent := next], table[next := Lane(agent, None, None, false, false)], next + 1;
      }
      var lane := table[lanes[agent]];
      if flavour == Discovery && lane.quarantined { return Capacity; }
      var highest := lane.active;
      if lane.pending.Some? && (highest.None? || lane.pending.value.revision >= highest.value.revision) {
        highest := lane.pending;
      }
      if highest.Some? {
        if report.revision < highest.value.revision { return Invalid; }
        if report.revision == highest.value.revision {
          return if report.digest != highest.value.digest then Invalid else Duplicate;
        }
      }
      table := table[lanes[agent] := lane.(pending := Some(report), wake := true)];
      answer := Accepted;
    }

    method TakePending(id: LaneId) returns (report: Option<Report>)
      requires Valid() && id in table
      modifies this`table
      ensures Valid() && (View(), report) == (SetLane(old(View()), id, Take(old(table[id])).0), Take(old(table[id])).1)
    {
      report := table[id].pending;
      if report.Some? { table := table[id := table[id].(pending := None, active := report)]; }
      assert table == old(table)[id := table[id]];
    }

    method RetireLane(id: LaneId) returns (gone: bool)
      requires Valid() && id in table
      modifies this`lanes
      ensures Valid() && gone == Retires(old(table[id]))
      ensures View() == if gone then Unregister(old(View()), table[id].agent) else old(View())
    {
      var lane := table[id];
      if lane.pending.Some? || lane.active.Some? || lane.quarantined { return false; }
      lanes := lanes - {lane.agent};
      gone := true;
    }

    method ReleaseLane(id: LaneId) returns (restart: bool)
      requires Valid() && id in table
      modifies this`lanes, this`table
      ensures Valid()
      ensures var lane := Released(old(table[id]));
              var d := SetLane(old(View()), id, lane);
              View() == if ReleaseDrops(flavour, d, lane) then Unregister(d, lane.agent) else d
      ensures restart <==> flavour == Plugin && !closed && old(table[id]).pending.Some?
    {
      var lane := table[id].(active := None, quarantined := false);
      table := table[id := lane];
      if lane.pending.None? && (flavour == Plugin || !closed) { lanes := lanes - {lane.agent}; }
      restart := flavour == Plugin && !closed && lane.pending.Some?;
    }

    /** Takes the first occurrence of an agent out of the list of persisted agents. */
    method RemoveFromOrder(agent: Agent)
      modifies this`order
      ensures order == Without(old(order), agent)
    {
      var i := 0;
      while i < |order| && order[i] != agent
        invariant 0 <= i <= |order|
        invariant order == old(order) && Without(order, agent) == order[..i] + Without(order[i..], agent)
      {
        assert order[..i + 1] == order[..i] + [order[i]];
        assert order[i..][1..] == order[i + 1..];
        i := i + 1;
      }
      if i < |order| {
        assert order[i..][1..] == order[i + 1..];
        order := order[..i] + order[i + 1..];
      } else {
        assert order[..i] == order && order[i..] == [];
      }
    }

    /** Drops the oldest agents until the list fits. */
    method Trim(limit: nat)
      modifies this`order, this`last
      ensures order == old(order)[Surplus(old(order), limit)..]
      ensures last == Remembered(flavour, old(View()), old(last), Dropped(old(order), limit))
    {
      ghost var k := 0;
      while |order| > limit
        invariant 0 <= k <= Surplus(old(order), limit) && order == old(order)[k..]
        invariant last == Remembered(flavour, old(View()), old(last), set i | 0 <= i < k :: old(order)[i])
      {
        var oldest := order[0];
        ghost var before, after := (set i | 0 <= i < k :: old(order)[i]), (set i | 0 <= i < k + 1 :: old(order)[i]);
        assert after == before + {oldest};
        order := order[1..];
        if flavour == Discovery || oldest !in lanes { last := last - {oldest}; }
        k := k + 1;
      }
    }

    method Persisted(agent: Agent, report: Report, now: int)
      requires flavour == Plugin
      modifies this`last, this`order
      ensures View() == PersistPlugin(old(View()), agent, report, now)
    {
      last := last[agent := Record(report, now)];
      RemoveFromOrder(agent);
      order := order + [agent];
      Trim(maximum * 4);
    }

    method Remember(agent: Agent, report: Report, now: int)
      requires flavour == Discovery
      modifies this`last, this`order
      ensures View() == PersistDiscovery(old(View()), agent, report, now)
    {
      if agent in last && last[agent].report.revision >= report.revision { return; }
      if agent !in last { order := order + [agent]; }
      last := last[agent := Record(report, now)];
      Trim(maximum);
    }
  }
}
