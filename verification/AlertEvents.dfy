/** The alert event and its lifecycle (backend/internal/alert/model.go), the check that the storage layer repeats on
    every write, and the event and audit tables behind it (backend/internal/alert/postgres.go).

    Times are numbers and 0 is the zero time.  Of the evidence only the time since which the condition holds is kept;
    the audit action "event.<state>" is represented by the state. */
module AlertEvents {
  import opened Strings
  import opened Wrappers

  type Time = nat

  datatype EventState = Pending | Firing | Acknowledged | Resolved

  datatype Scope = Scope(tenant: string, project: string)

  datatype Event = Event(
    id: string, scope: Scope, rule: string, fingerprint: string, state: EventState, firstSeen: Time, lastSeen: Time,
    firingAt: Time, acknowledgedAt: Time, resolvedAt: Time, actor: string, since: Option<Time>)

  datatype Error = InvalidEvent | InvalidTransition | InvalidTime | InvalidAudit | Conflict

  // ---- The event -----------------------------------------------------------------------------

  predicate Within(t: Time, e: Event) {
    t == 0 || e.firstSeen <= t <= e.lastSeen
  }

  predicate Stamped(e: Event) {
    match e.state
    case Pending => e.firingAt == 0 && e.acknowledgedAt == 0 && e.resolvedAt == 0
    case Firing => e.firingAt != 0 && e.acknowledgedAt == 0 && e.resolvedAt == 0
    case Acknowledged => e.firingAt != 0 && e.acknowledgedAt != 0 && e.firingAt <= e.acknowledgedAt && e.resolvedAt == 0
    case Resolved =>
      && e.resolvedAt != 0 && (e.firingAt != 0 ==> e.firingAt <= e.resolvedAt)
      && (e.acknowledgedAt != 0 ==> e.firingAt != 0 && e.acknowledgedAt <= e.resolvedAt)
  }

  predicate Valid(e: Event) {
    && !Blank(e.scope.tenant) && !Blank(e.scope.project) && !Blank(e.rule) && !Blank(e.fingerprint)
    && 0 < e.firstSeen <= e.lastSeen
    && Within(e.firingAt, e) && Within(e.acknowledgedAt, e) && Within(e.resolvedAt, e)
    && Stamped(e)
  }

  predicate Permitted(current: EventState, next: EventState) {
    match current
    case Pending => next == Firing || next == Resolved
    case Firing => next == Acknowledged || next == Resolved
    case Acknowledged => next == Resolved
    case Resolved => false
  }

  function Stamp(e: Event, next: EventState, at: Time): Event {
    match next
    case Pending => e
    case Firing => e.(firingAt := at)
    case Acknowledged => e.(acknowledgedAt := at)
    case Resolved => e.(resolvedAt := at)
  }

  function Transition(e: Event, next: EventState, at: Time, actor: string): Result<Event, Error> {
    if at == 0 then Err(InvalidTime)
    else if (e.firstSeen != 0 && at < e.firstSeen) || (e.lastSeen != 0 && at < e.lastSeen) then Err(InvalidTime)
    else if !Permitted(e.state, next) then Err(InvalidTransition)
    else
      var firstSeen := if e.firstSeen == 0 then at else e.firstSeen;
      Ok(Stamp(e.(firstSeen := firstSeen, state := next, lastSeen := at, actor := actor), next, at))
  }

  predicate SameIdentity(e: Event, e': Event) {
    && e'.id == e.id && e'.scope == e.scope && e'.rule == e.rule && e'.fingerprint == e.fingerprint
    && e'.firstSeen == e.firstSeen
  }

  /** A valid event moves on exactly along the lifecycle and not back in time, and stays valid. */
  lemma TransitionIsExact(e: Event, next: EventState, at: Time, actor: string)
    requires Valid(e)
    ensures Transition(e, next, at, actor).Ok? <==> e.lastSeen <= at && Permitted(e.state, next)
    ensures Transition(e, next, at, actor).Ok? ==>
              var e' := Transition(e, next, at, actor).value;
              && Valid(e') && SameIdentity(e, e') && e'.state == next && e'.lastSeen == at && e'.actor == actor
              && e'.since == e.since
  {
  }

  // ---- The storage gate ----------------------------------------------------------------------

  predicate SameStamps(e: Event, e': Event) {
    e'.firingAt == e.firingAt && e'.acknowledgedAt == e.acknowledgedAt && e'.resolvedAt == e.resolvedAt
  }

  /** The check under the row lock: `None` when the write is refused, otherwise whether the state changes. */
  function Gate(previous: Option<Event>, next: Event): Option<bool> {
    if Blank(next.actor) then None
    else if previous.None? then
      if next.state != Pending && next.state != Resolved then None
      else if next.state == Resolved && next.resolvedAt != next.lastSeen then None
      else Some(true)
    else
      var e := previous.value;
      if !SameIdentity(e, next) || next.lastSeen < e.lastSeen then None
      else if e.state == next.state then if SameStamps(e, next) then Some(false) else None
      else if e.state == Resolved && next.state == Pending then
        if next.firingAt != 0 || next.acknowledgedAt != 0 || next.resolvedAt != 0 then None else Some(true)
      else
        var expected := Transition(e, next.state, next.lastSeen, next.actor);
        if expected.Err? || !SameStamps(expected.value, next) then None else Some(true)
  }

  /** The edges of the lifecycle, reopening included. */
  predicate Edge(a: EventState, b: EventState) {
    Permitted(a, b) || (a == Resolved && b == Pending)
  }

  /** What may replace what: the declarative reading of the gate. */
  predicate Follows(previous: Option<Event>, next: Event) {
    && !Blank(next.actor)
    && match previous
       case None => next.state == Pending || (next.state == Resolved && next.resolvedAt == next.lastSeen)
       case Some(e) =>
         && SameIdentity(e, next) && e.lastSeen <= next.lastSeen
         && (e.state == next.state || Edge(e.state, next.state))
         && (e.state == next.state ==> SameStamps(e, next))
         && (next.state == Firing && e.state != Firing ==> next.firingAt == next.lastSeen)
         && (next.state == Acknowledged && e.state != Acknowledged ==>
               next.acknowledgedAt == next.lastSeen && next.firingAt == e.firingAt)
         && (next.state == Resolved && e.state != Resolved ==>
               next.resolvedAt == next.lastSeen && next.firingAt == e.firingAt
                 && next.acknowledgedAt == e.acknowledgedAt)
  }

  lemma GateIsExact(previous: Option<Event>, next: Event)
    requires Valid(next) && (previous.Some? ==> Valid(previous.value))
    ensures Gate(previous, next).Some? <==> Follows(previous, next)
    ensures Gate(previous, next).Some? ==>
              (Gate(previous, next).value <==> previous.None? || previous.value.state != next.state)
  {
    hide Blank, Within;
    if previous.Some? {
      assert Stamped(previous.value) && Stamped(next);
      assert 0 < previous.value.firstSeen <= previous.value.lastSeen;
    }
  }

  // ---- The tables ----------------------------------------------------------------------------

  datatype Audit = Audit(scope: Scope, actor: string, action: EventState, target: string, at: Time)

  type Key = (Scope, string)

  /** `events` by scope and fingerprint. */
  datatype Store = Store(events: map<Key, Event>, audits: seq<Audit>)

  function KeyOf(e: Event): Key {
    (e.scope, e.fingerprint)
  }

  function Find(s: Store, k: Key): Option<Event> {
    if k in s.events then Some(s.events[k]) else None
  }

  /** Another event of the scope has the identifier: the primary key refuses a second one. */
  predicate Taken(s: Store, e: Event) {
    exists k :: k in s.events && k != KeyOf(e) && s.events[k].scope == e.scope && s.events[k].id == e.id
  }

  function Derived(e: Event): Audit {
    Audit(e.scope, e.actor, e.state, e.id, e.lastSeen)
  }

  /** One write in one transaction. */
  function Mutate(s: Store, e: Event, supplied: Option<Audit>): Result<Store, Error> {
    var changed := Gate(Find(s, KeyOf(e)), e);
    if !Valid(e) then Err(InvalidEvent)
    else if changed.None? then Err(InvalidTransition)
    else if supplied.Some? && !changed.value then Err(InvalidAudit)
    else if Taken(s, e) then Err(Conflict)
    else
      var record := if supplied.Some? then supplied.value.(target := e.id) else Derived(e);
      Ok(Store(s.events[KeyOf(e) := e], if changed.value then s.audits + [record] else s.audits))
  }

  predicate ValidAudit(a: Audit) {
    !Blank(a.scope.tenant) && !Blank(a.scope.project) && !Blank(a.actor) && !Blank(a.target) && a.at != 0
  }

  /** The record says what the event says. */
  predicate Describes(a: Audit, e: Event) {
    a == Derived(e)
  }

  function PutEvent(s: Store, e: Event): Result<Store, Error> {
    Mutate(s, e, None)
  }

  function PutEventAndAudit(s: Store, e: Event, a: Audit): Result<Store, Error> {
    if !Valid(e) then Err(InvalidEvent)
    else if !ValidAudit(a) || !Describes(a, e) then Err(InvalidAudit)
    else Mutate(s, e, Some(a))
  }

  /** Any write, by whatever writer, of whatever event: an old copy, a made-up one, an operator's. */
  datatype Write = Plain(event: Event) | Audited(event: Event, audit: Audit)

  function Put(s: Store, w: Write): Result<Store, Error> {
    match w
    case Plain(e) => PutEvent(s, e)
    case Audited(e, a) => PutEventAndAudit(s, e, a)
  }

  /** A refused write leaves the tables as they are. */
  function Step(s: Store, w: Write): Store {
    var r := Put(s, w);
    if r.Ok? then r.value else s
  }

  function Run(s: Store, writes: seq<Write>): Store {
    if writes == [] then s else Step(Run(s, writes[..|writes| - 1]), writes[|writes| - 1])
  }

  // ---- What every sequence of writes keeps ---------------------------------------------------

  /** The states the audit table records for one event, oldest first. */
  function Trail(audits: seq<Audit>, scope: Scope, id: string): seq<EventState> {
    if audits == [] then []
    else
      var rest, a := Trail(audits[..|audits| - 1], scope, id), audits[|audits| - 1];
      if a.scope == scope && a.target == id then rest + [a.action] else rest
  }

  /** A walk through the lifecycle from one of its two starting states to `last`. */
  predicate Walk(trail: seq<EventState>, last: EventState) {
    && trail != [] && (trail[0] == Pending || trail[0] == Resolved) && trail[|trail| - 1] == last
    && forall i :: 0 <= i < |trail| - 1 ==> Edge(trail[i], trail[i + 1])
  }

  /** The events are valid, name an actor and are filed under their key, and no identifier is used twice in a scope. */
  ghost predicate TableInv(s: Store) {
    && (forall k :: k in s.events ==> Valid(s.events[k]) && !Blank(s.events[k].actor) && KeyOf(s.events[k]) == k)
    && (forall j, k :: j in s.events && k in s.events && j != k ==>
          s.events[j].scope != s.events[k].scope || s.events[j].id != s.events[k].id)
  }

  /** The audit table tells the whole story of every event and of nothing else. */
  ghost predicate AuditInv(s: Store) {
    && (forall k :: k in s.events ==> Walk(Trail(s.audits, s.events[k].scope, s.events[k].id), s.events[k].state))
    && (forall scope, id :: Trail(s.audits, scope, id) != [] ==>
          exists k :: k in s.events && s.events[k].scope == scope && s.events[k].id == id)
  }

  ghost predicate Inv(s: Store) {
    TableInv(s) && AuditInv(s)
  }

  lemma MutateIsExact(s: Store, e: Event, supplied: Option<Audit>)
    requires TableInv(s)
    ensures Mutate(s, e, supplied).Ok? <==>
              && Valid(e) && Follows(Find(s, KeyOf(e)), e) && !Taken(s, e)
              && (supplied.Some? ==> KeyOf(e) !in s.events || s.events[KeyOf(e)].state != e.state)
  {
    hide Gate, Follows, Valid, Taken;
    if Valid(e) { GateIsExact(Find(s, KeyOf(e)), e); }
  }

  /** An accepted write files one valid event and adds one audit record exactly when the state changes. */
  lemma MutateWrites(s: Store, e: Event, supplied: Option<Audit>)
    requires TableInv(s) && Mutate(s, e, supplied).Ok?
    requires supplied.Some? ==> Describes(supplied.value, e)
    ensures var s' := Mutate(s, e, supplied).value;
            && Valid(e) && Follows(Find(s, KeyOf(e)), e) && s'.events == s.events[KeyOf(e) := e] && TableInv(s')
            && s'.audits == if KeyOf(e) in s.events && s.events[KeyOf(e)].state == e.state then s.audits
               else s.audits + [Derived(e)]
  {
    hide Gate, Follows, Valid, Blank;
    MutateIsExact(s, e, supplied);
    GateIsExact(Find(s, KeyOf(e)), e);
    FollowsNames(Find(s, KeyOf(e)), e);
  }

  lemma FollowsNames(previous: Option<Event>, e: Event)
    requires Follows(previous, e)
    ensures !Blank(e.actor)
  {
    hide Blank;
  }

  lemma TrailGrows(audits: seq<Audit>, a: Audit, scope: Scope, id: string)
    ensures Trail(audits + [a], scope, id) ==
            if a.scope == scope && a.target == id then Trail(audits, scope, id) + [a.action]
            else Trail(audits, scope, id)
  {
    assert (audits + [a])[..|audits|] == audits;
  }

  lemma WalkGrows(trail: seq<EventState>, last: EventState, next: EventState)
    requires Walk(trail, last) && Edge(last, next)
    ensures Walk(trail + [next], next)
  {
    var t := trail + [next];
    forall i | 0 <= i < |t| - 1 ensures Edge(t[i], t[i + 1]) {
      assert i < |trail| - 1 ==> Edge(trail[i], trail[i + 1]);
    }
  }

  /** The audit trail of the written event after an accepted write. */
  lemma WrittenTrail(s: Store, s': Store, e: Event)
    requires Inv(s) && TableInv(s') && Follows(Find(s, KeyOf(e)), e) && s'.events == s.events[KeyOf(e) := e]
    requires s'.audits == if KeyOf(e) in s.events && s.events[KeyOf(e)].state == e.state then s.audits
             else s.audits + [Derived(e)]
    ensures Walk(Trail(s'.audits, e.scope, e.id), e.state)
  {
    hide Valid, Walk, Blank, SameStamps;
    TrailGrows(s.audits, Derived(e), e.scope, e.id);
    var k := KeyOf(e);
    if k in s.events {
      var stored := s.events[k];
      if stored.state != e.state { WalkGrows(Trail(s.audits, e.scope, e.id), stored.state, e.state); }
    } else {
      forall j | j in s.events ensures s.events[j].scope != e.scope || s.events[j].id != e.id {
        assert s'.events[j] == s.events[j] && s'.events[k] == e;
      }
      StartWalk(e.state);
    }
  }

  lemma StartWalk(state: EventState)
    requires state == Pending || state == Resolved
    ensures Walk([state], state) && [] + [state] == [state]
  {
  }

  lemma OtherTrails(s: Store, s': Store, e: Event, scope: Scope, id: string)
    requires s'.audits == s.audits || s'.audits == s.audits + [Derived(e)]
    ensures (scope, id) != (e.scope, e.id) ==> Trail(s'.audits, scope, id) == Trail(s.audits, scope, id)
  {
    TrailGrows(s.audits, Derived(e), scope, id);
  }

  lemma WriteKeepsAudits(s: Store, s': Store, e: Event)
    requires Inv(s) && TableInv(s') && Follows(Find(s, KeyOf(e)), e) && s'.events == s.events[KeyOf(e) := e]
    requires s'.audits == if KeyOf(e) in s.events && s.events[KeyOf(e)].state == e.state then s.audits
             else s.audits + [Derived(e)]
    ensures AuditInv(s')
  {
    hide Walk, Trail, Valid, Follows;
    var k := KeyOf(e);
    forall j | j in s'.events ensures Walk(Trail(s'.audits, s'.events[j].scope, s'.events[j].id), s'.events[j].state) {
      if j == k {
        WrittenTrail(s, s', e);
      } else {
        assert s'.events[k] == e && s'.events[j] == s.events[j];
        OtherTrails(s, s', e, s.events[j].scope, s.events[j].id);
      }
    }
    forall scope, id | Trail(s'.audits, scope, id) != []
      ensures exists j :: j in s'.events && s'.events[j].scope == scope && s'.events[j].id == id
    {
      if (scope, id) == (e.scope, e.id) {
        assert k in s'.events && s'.events[k] == e;
      } else {
        OtherTrails(s, s', e, scope, id);
        var j :| j in s.events && s.events[j].scope == scope && s.events[j].id == id;
        assert j in s'.events && s'.events[j].scope == scope && s'.events[j].id == id by { KeepsIdentifier(s, e, j); }
      }
    }
  }

  lemma KeepsIdentifier(s: Store, e: Event, j: Key)
    requires j in s.events && Follows(Find(s, KeyOf(e)), e)
    ensures var e' := s.events[KeyOf(e) := e][j]; e'.scope == s.events[j].scope && e'.id == s.events[j].id
  {
    hide Blank, SameStamps;
  }

  lemma StepKeepsInv(s: Store, w: Write)
    requires Inv(s)
    ensures Inv(Step(s, w))
  {
    hide Mutate, Valid, AuditInv, TableInv, Follows;
    var e := w.event;
    var supplied := if w.Audited? then Some(w.audit) else None;
    if Put(s, w).Ok? {
      assert Put(s, w) == Mutate(s, e, supplied);
      MutateWrites(s, e, supplied);
      WriteKeepsAudits(s, Step(s, w), e);
    }
  }

  /** No event is lost, identity and first sighting stay, and time does not go back. */
  ghost predicate Evolves(s: Store, s': Store) {
    forall k :: k in s.events ==>
      && k in s'.events && SameIdentity(s.events[k], s'.events[k]) && s.events[k].lastSeen <= s'.events[k].lastSeen
  }

  lemma StepEvolves(s: Store, w: Write)
    requires Inv(s)
    ensures Evolves(s, Step(s, w)) && s.audits <= Step(s, w).audits
  {
    hide Mutate, Valid, AuditInv, TableInv, Blank, SameStamps;
    var supplied := if w.Audited? then Some(w.audit) else None;
    if Put(s, w).Ok? {
      assert Put(s, w) == Mutate(s, w.event, supplied);
      MutateWrites(s, w.event, supplied);
    }
  }

  /** Over any sequence of writes from a sound store: sound again, every event still there with its identity and first
      sighting, no event seen earlier than before, and no audit record changed. */
  lemma {:induction false} RunsKeepInv(s: Store, writes: seq<Write>)
    requires Inv(s)
    ensures Inv(Run(s, writes)) && Evolves(s, Run(s, writes)) && s.audits <= Run(s, writes).audits
  {
    hide Step, Inv;
    if writes != [] {
      var before := Run(s, writes[..|writes| - 1]);
      RunsKeepInv(s, writes[..|writes| - 1]);
      StepKeepsInv(before, writes[|writes| - 1]);
      StepEvolves(before, writes[|writes| - 1]);
    }
  }

  lemma EmptyInv()
    ensures Inv(Store(map[], []))
  {
  }

  // ---- The repository object -----------------------------------------------------------------

  class EventRepository {
    var events: map<Key, Event>
    var audits: seq<Audit>

    function View(): Store
      reads this
    {
      Store(events, audits)
    }

    constructor ()
      ensures View() == Store(map[], []) && Inv(View())
    {
      events, audits := map[], [];
      new;
      EmptyInv();
    }

    method MutateEvent(e: Event, supplied: Option<Audit>) returns (error: Option<Error>)
      modifies this
      ensures error.None? <==> old(Mutate(View(), e, supplied)).Ok?
      ensures View() == if error.None? then old(Mutate(View(), e, supplied)).value else old(View())
      ensures error.Some? ==> old(Mutate(View(), e, supplied)) == Err(error.value)
    {
      hide Gate, Valid;
      if !Valid(e) { return Some(InvalidEvent); }
      var previous := if KeyOf(e) in events then Some(events[KeyOf(e)]) else None;
      var changed := Gate(previous, e);
      if changed.None? { return Some(InvalidTransition); }
      if supplied.Some? && !changed.value { return Some(InvalidAudit); }
      if exists k :: k in events && k != KeyOf(e) && events[k].scope == e.scope && events[k].id == e.id {
        return Some(Conflict);
      }
      events := events[KeyOf(e) := e];
      if changed.value {
        var record := if supplied.Some? then supplied.value.(target := e.id) else Derived(e);
        audits := audits + [record];
      }
      error := None;
    }

    method PutWrite(w: Write) returns (error: Option<Error>)
      requires Inv(View())
      modifies this
      ensures Inv(View()) && View() == Step(old(View()), w)
      ensures error.None? <==> old(Put(View(), w)).Ok?
    {
      hide Mutate, Valid, Inv;
      StepKeepsInv(View(), w);
      if w.Audited? {
        if !Valid(w.event) { return Some(InvalidEvent); }
        if !ValidAudit(w.audit) || !Describes(w.audit, w.event) { return Some(InvalidAudit); }
      }
      error := MutateEvent(w.event, if w.Audited? then Some(w.audit) else None);
    }
  }
}
