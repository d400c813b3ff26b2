/** How the evaluator turns one evaluation result into at most one write, how it keeps its own system findings, and what
    an operator may do (backend/internal/alert/evaluator.go, backend/internal/controlplane/http.go). */
module AlertEvaluator {
  import opened Strings
  import opened Wrappers
  import opened AlertEvents

  const EVALUATOR := "system:evaluator"

  datatype MissingData = Ignore | RaiseAlert | Recover | Unknown

  /** `hold` is the time a condition has to hold before the event fires. */
  datatype Rule = Rule(scope: Scope, id: string, hold: nat, missing: MissingData)

  datatype Verdict = Nothing | Fails | Writes(write: Write)

  function Recorded(e: Event): Verdict {
    Writes(Audited(e, Audit(e.scope, EVALUATOR, e.state, e.id, e.lastSeen)))
  }

  /** Since when the condition holds: what the evidence says, unless that is in the future, else the first sighting. */
  function Since(e: Event, now: Time): Time {
    if e.since.Some? && e.since.value <= now then e.since.value else e.firstSeen
  }

  function Created(rule: Rule, fingerprint: string, id: string, now: Time): Event {
    Event(id, rule.scope, rule.id, fingerprint, Pending, now, now, 0, 0, 0, EVALUATOR, None)
  }

  function Reopened(e: Event, now: Time): Event {
    e.(state := Pending, lastSeen := now, firingAt := 0, acknowledgedAt := 0, resolvedAt := 0, actor := EVALUATOR)
  }

  /** A result for an event that is not stored yet. */
  function Opening(rule: Rule, fingerprint: string, condition: bool, createResolved: bool, now: Time,
                   id: string): Verdict {
    var e := Created(rule, fingerprint, id, now);
    if !condition && !createResolved then Nothing
    else if createResolved then Recorded(e.(state := Resolved, resolvedAt := now))
    else Recorded(e.(since := Some(now)))
  }

  /** The condition holds for a stored event. */
  function Holding(e: Event, hold: nat, now: Time): Verdict {
    match e.state
    case Resolved => Recorded(Reopened(e, now).(since := Some(now)))
    case Pending =>
      var since := Since(e, now);
      if now - since >= hold then
        var fired := Transition(e, Firing, now, EVALUATOR);
        if fired.Err? then Fails else Recorded(fired.value.(since := Some(since)))
      else Writes(Plain(e.(lastSeen := now, actor := EVALUATOR, since := Some(since))))
    case _ => Writes(Plain(e.(lastSeen := now, actor := EVALUATOR)))
  }

  /** It does not hold. */
  function Clearing(e: Event, now: Time): Verdict {
    if e.state == Resolved then Nothing
    else
      var resolved := Transition(e, Resolved, now, EVALUATOR);
      if resolved.Err? then Fails else Recorded(resolved.value.(since := None))
  }

  function Judged(previous: Option<Event>, rule: Rule, fingerprint: string, condition: bool, createResolved: bool,
                  now: Time, id: string): Verdict {
    if previous.None? then Opening(rule, fingerprint, condition, createResolved, now, id)
    else if condition then Holding(previous.value, rule.hold, now)
    else Clearing(previous.value, now)
  }

  /** The tables afterwards, and whether the evaluator saw its write succeed. */
  function Carry(s: Store, v: Verdict): (Store, bool) {
    match v
    case Writes(w) => (Step(s, w), Put(s, w).Ok?)
    case _ => (s, false)
  }

  function Apply(s: Store, rule: Rule, fingerprint: string, condition: bool, createResolved: bool, now: Time,
                 id: string): (Store, bool) {
    Carry(s, Judged(Find(s, (rule.scope, fingerprint)), rule, fingerprint, condition, createResolved, now, id))
  }

  function ApplyMissing(s: Store, rule: Rule, fingerprint: string, now: Time, id: string): (Store, bool) {
    match rule.missing
    case RaiseAlert => Apply(s, rule, fingerprint, true, false, now, id)
    case Recover => Apply(s, rule, fingerprint, false, true, now, id)
    case _ => (s, false)
  }

  // ---- Agreement with the storage gate -------------------------------------------------------

  /** Rule, fingerprint, time and new identifier are usable. */
  predicate Usable(rule: Rule, fingerprint: string, now: Time, id: string) {
    && !Blank(rule.scope.tenant) && !Blank(rule.scope.project) && !Blank(rule.id) && !Blank(fingerprint) && !Blank(id)
    && now != 0
  }

  /** No event of the scope has the identifier. */
  ghost predicate Unused(s: Store, scope: Scope, id: string) {
    forall k :: k in s.events ==> s.events[k].scope != scope || s.events[k].id != id
  }

  /** The stored event has an identifier, or the one for a new event is not in use. */
  ghost predicate Named(s: Store, k: Key, id: string) {
    if k in s.events then !Blank(s.events[k].id) else Unused(s, k.0, id)
  }

  lemma EvaluatorIsNamed()
    ensures !Blank(EVALUATOR)
  {
    assert !Space(EVALUATOR[0]);
  }

  /** What the evaluator wants to write about a stored event is acceptable if and only if time has not gone back. */
  lemma JudgedFollows(e: Event, rule: Rule, fingerprint: string, condition: bool, createResolved: bool, now: Time,
                      id: string)
    requires Valid(e) && Judged(Some(e), rule, fingerprint, condition, createResolved, now, id) != Nothing
    ensures var v := Judged(Some(e), rule, fingerprint, condition, createResolved, now, id);
            v.Writes? && Valid(v.write.event) && Follows(Some(e), v.write.event) <==> e.lastSeen <= now
    ensures var v := Judged(Some(e), rule, fingerprint, condition, createResolved, now, id);
            v.Writes? ==>
              && KeyOf(v.write.event) == KeyOf(e) && v.write.event.id == e.id
              && (v.write.Audited? <==> v.write.event.state != e.state)
              && (v.write.Audited? ==> Describes(v.write.audit, v.write.event))
  {
    hide Blank;
    EvaluatorIsNamed();
    if condition && e.state == Pending { TransitionIsExact(e, Firing, now, EVALUATOR); }
    if !condition { TransitionIsExact(e, Resolved, now, EVALUATOR); }
  }

  lemma OpeningFollows(rule: Rule, fingerprint: string, condition: bool, createResolved: bool, now: Time, id: string)
    requires Usable(rule, fingerprint, now, id)
    ensures var v := Opening(rule, fingerprint, condition, createResolved, now, id);
            v != Nothing ==>
              && v.Writes? && Valid(v.write.event) && Follows(None, v.write.event)
                 && KeyOf(v.write.event) == (rule.scope, fingerprint)
              && v.write.event.id == id && v.write.Audited? && Describes(v.write.audit, v.write.event)
              && ValidAudit(v.write.audit)
  {
    hide Blank;
    EvaluatorIsNamed();
  }

  lemma NotTaken(s: Store, e: Event)
    requires TableInv(s)
    requires if KeyOf(e) in s.events then s.events[KeyOf(e)].id == e.id else Unused(s, e.scope, e.id)
    ensures !Taken(s, e)
  {
    hide Valid, Blank;
  }

  lemma WriteIsAccepted(s: Store, w: Write)
    requires TableInv(s) && Valid(w.event) && Follows(Find(s, KeyOf(w.event)), w.event)
    requires if KeyOf(w.event) in s.events then s.events[KeyOf(w.event)].id == w.event.id
             else Unused(s, w.event.scope, w.event.id)
    requires w.Audited? <==> KeyOf(w.event) !in s.events || s.events[KeyOf(w.event)].state != w.event.state
    requires w.Audited? ==> Describes(w.audit, w.event) && !Blank(w.event.id)
    ensures Put(s, w).Ok?
    ensures Step(s, w).events == s.events[KeyOf(w.event) := w.event]
    ensures Step(s, w).audits == if w.Audited? then s.audits + [Derived(w.event)] else s.audits
  {
    hide Follows, Mutate, TableInv, Blank;
    NotTaken(s, w.event);
    FollowsNames(Find(s, KeyOf(w.event)), w.event);
    var supplied := if w.Audited? then Some(w.audit) else None;
    MutateIsExact(s, w.event, supplied);
    MutateWrites(s, w.event, supplied);
  }

  /** The evaluator and the gate agree: a result that asks for a write is written exactly when its time is not before
      the stored last sighting, one audit record is added exactly when the state changes, and a refused result leaves
      the tables as they were. */
  lemma EvaluatorAgreesWithGate(s: Store, rule: Rule, fingerprint: string, condition: bool, createResolved: bool,
                                now: Time, id: string)
    requires Inv(s) && Usable(rule, fingerprint, now, id) && Named(s, (rule.scope, fingerprint), id)
    ensures var k := (rule.scope, fingerprint);
            var v := Judged(Find(s, k), rule, fingerprint, condition, createResolved, now, id);
            var result := Apply(s, rule, fingerprint, condition, createResolved, now, id);
            && (result.1 <==> v != Nothing && (k in s.events ==> s.events[k].lastSeen <= now))
            && (!result.1 ==> result.0 == s)
            && (result.1 ==>
                  && v.Writes? && KeyOf(v.write.event) == k && result.0.events == s.events[k := v.write.event]
                  && result.0.audits == if k in s.events && s.events[k].state == v.write.event.state then s.audits
                                        else s.audits + [Derived(v.write.event)])
  {
    hide Valid, Follows, Mutate, AuditInv, Judged, Blank, Taken, Gate;
    var k := (rule.scope, fingerprint);
    var v := Judged(Find(s, k), rule, fingerprint, condition, createResolved, now, id);
    JudgedAgrees(s, rule, fingerprint, condition, createResolved, now, id);
    if v.Writes? {
      var w := v.write;
      if Valid(w.event) && Follows(Find(s, k), w.event) {
        WriteIsAccepted(s, w);
      } else {
        RefusedIsError(s, w);
      }
    }
  }

  lemma RefusedIsError(s: Store, w: Write)
    requires TableInv(s) && !(Valid(w.event) && Follows(Find(s, KeyOf(w.event)), w.event))
    ensures Put(s, w).Err? && Step(s, w) == s
  {
    hide Mutate, Valid, Follows, Blank;
    MutateIsExact(s, w.event, if w.Audited? then Some(w.audit) else None);
  }

  lemma JudgedAgrees(s: Store, rule: Rule, fingerprint: string, condition: bool, createResolved: bool, now: Time,
                     id: string)
    requires TableInv(s) && Usable(rule, fingerprint, now, id)
    ensures var k := (rule.scope, fingerprint);
            var v := Judged(Find(s, k), rule, fingerprint, condition, createResolved, now, id);
            && (v != Nothing ==>
                  ((v.Writes? && Valid(v.write.event) && Follows(Find(s, k), v.write.event))
                   <==> (k in s.events ==> s.events[k].lastSeen <= now)))
            && (v.Writes? ==>
                  && KeyOf(v.write.event) == k
                  && v.write.event.id == (if k in s.events then s.events[k].id else id)
                  && (v.write.Audited? <==> k !in s.events || s.events[k].state != v.write.event.state)
                  && (v.write.Audited? ==> Describes(v.write.audit, v.write.event)))
  {
    hide Valid, Follows, Blank, Holding, Clearing;
    var k := (rule.scope, fingerprint);
    var v := Judged(Find(s, k), rule, fingerprint, condition, createResolved, now, id);
    if k in s.events {
      if v != Nothing { JudgedFollows(s.events[k], rule, fingerprint, condition, createResolved, now, id); }
    } else {
      OpeningFollows(rule, fingerprint, condition, createResolved, now, id);
    }
  }

  // ---- When a result is written, and what is stored then -------------------------------------

  /** A result has something to say: it creates an event, or is about one and holds, or ends one. */
  predicate Matters(previous: Option<Event>, condition: bool, createResolved: bool) {
    match previous
    case None => condition || createResolved
    case Some(e) => condition || e.state != Resolved
  }

  /** What the evaluator leaves of an event. */
  ghost predicate Sighting(previous: Option<Event>, rule: Rule, fingerprint: string, id: string, condition: bool,
                           createResolved: bool, now: Time, e: Event) {
    && e.lastSeen == now && e.actor == EVALUATOR && KeyOf(e) == (rule.scope, fingerprint)
    && match previous
       case None =>
         && e.id == id && e.rule == rule.id && e.firstSeen == now
         && e.state == (if createResolved then Resolved else Pending)
         && (e.state == Pending ==> e.since == Some(now))
       case Some(was) =>
         && SameIdentity(was, e)
         && (!condition ==> e.state == Resolved && e.resolvedAt == now)
         && (condition && was.state == Resolved ==> e.state == Pending && e.since == Some(now))
         && (condition && was.state == Pending ==>
               var since := if was.since.Some? && was.since.value <= now then was.since.value else was.firstSeen;
               && e.since == Some(since)
               && (if now - since >= rule.hold then e.state == Firing && e.firingAt == now else e.state == Pending))
         && (condition && was.state in {Firing, Acknowledged} ==> e.state == was.state && SameStamps(was, e))
  }

  lemma JudgedSights(previous: Option<Event>, rule: Rule, fingerprint: string, condition: bool, createResolved: bool,
                     now: Time, id: string)
    requires previous.Some? ==> Valid(previous.value) && KeyOf(previous.value) == (rule.scope, fingerprint)
    ensures var v := Judged(previous, rule, fingerprint, condition, createResolved, now, id);
            && (v != Nothing <==> Matters(previous, condition, createResolved))
            && (v.Writes? ==> Sighting(previous, rule, fingerprint, id, condition, createResolved, now, v.write.event))
  {
    hide Blank;
  }

  /** A result is written exactly when it matters and is not before the stored last sighting.  The stored event has then
      been seen now, by the evaluator, with the identity it had or was given, and in the state the result calls for;
      nothing else changes. */
  lemma ResultIsWrittenExactlyWhen(s: Store, rule: Rule, fingerprint: string, condition: bool, createResolved: bool,
                                   now: Time, id: string)
    requires Inv(s) && Usable(rule, fingerprint, now, id) && Named(s, (rule.scope, fingerprint), id)
    ensures var k := (rule.scope, fingerprint);
            var (s', written) := Apply(s, rule, fingerprint, condition, createResolved, now, id);
            && (written <==>
                  Matters(Find(s, k), condition, createResolved) && (k in s.events ==> s.events[k].lastSeen <= now))
            && (!written ==> s' == s)
            && (written ==>
                  && k in s'.events && s'.events == s.events[k := s'.events[k]]
                  && Sighting(Find(s, k), rule, fingerprint, id, condition, createResolved, now, s'.events[k]))
  {
    hide Inv, Apply, Judged, Sighting, Matters, Blank;
    var k := (rule.scope, fingerprint);
    EvaluatorAgreesWithGate(s, rule, fingerprint, condition, createResolved, now, id);
    if k in s.events { StoredIsValid(s, k); }
    JudgedSights(Find(s, k), rule, fingerprint, condition, createResolved, now, id);
  }

  lemma StoredIsValid(s: Store, k: Key)
    requires Inv(s) && k in s.events
    ensures Valid(s.events[k]) && KeyOf(s.events[k]) == k
  {
    hide AuditInv, Valid, Blank;
  }

  // ---- System findings -----------------------------------------------------------------------

  /** Times are kept to the microsecond. */
  function Truncated(now: Time): Time {
    now - now % 1000
  }

  /** Fires a pending event. */
  function Fire(s: Store, e: Event, t: Time): (Store, bool) {
    var fired := Transition(e, Firing, t, EVALUATOR);
    if fired.Err? then (s, false) else Carry(s, Recorded(fired.value.(since := None)))
  }

  /** Two writes in a row: the pending event, then the firing one, unless the first is refused. */
  function RaiseFinding(s: Store, e: Event, t: Time): (Store, bool) {
    var first := Carry(s, Recorded(e.(since := None)));
    if !first.1 then first else Fire(first.0, e.(since := None), t)
  }

  /** A finding about the evaluator itself appears or goes away. */
  function Reconcile(s: Store, rule: Rule, fingerprint: string, active: bool, now: Time, id: string): (Store, bool) {
    var t, previous := Truncated(now), Find(s, (rule.scope, fingerprint));
    if !active then
      if previous.None? || previous.value.state == Resolved then (s, true)
      else
        var resolved := Transition(previous.value, Resolved, t, EVALUATOR);
        if resolved.Err? then (s, false) else Carry(s, Recorded(resolved.value.(since := None)))
    else if previous.None? then RaiseFinding(s, Created(rule, fingerprint, id, t), t)
    else
      match previous.value.state
      case Resolved => RaiseFinding(s, Reopened(previous.value, t), t)
      case Pending => Fire(s, previous.value, t)
      case _ => Carry(s, Writes(Plain(previous.value.(lastSeen := t, since := None))))
  }

  /** A recorded write of an event that may follow is accepted. */
  lemma RecordedIsAccepted(s: Store, e: Event)
    requires TableInv(s) && Valid(e) && Follows(Find(s, KeyOf(e)), e) && !Blank(e.id) && e.actor == EVALUATOR
    requires if KeyOf(e) in s.events then s.events[KeyOf(e)].id == e.id && s.events[KeyOf(e)].state != e.state
             else Unused(s, e.scope, e.id)
    ensures Carry(s, Recorded(e)) == (Store(s.events[KeyOf(e) := e], s.audits + [Derived(e)]), true)
    ensures TableInv(Carry(s, Recorded(e)).0)
  {
    hide Follows, Valid, TableInv, Blank, Put, Step;
    var w := Audited(e, Derived(e));
    WriteIsAccepted(s, w);
    PutKeepsTable(s, w);
  }

  lemma PutKeepsTable(s: Store, w: Write)
    requires TableInv(s) && Put(s, w).Ok?
    ensures TableInv(Step(s, w))
  {
    hide Mutate, TableInv, Valid, Blank, Follows;
    MutateWrites(s, w.event, if w.Audited? then Some(w.audit) else None);
  }

  lemma FireIsAccepted(s: Store, e: Event, t: Time)
    requires TableInv(s) && KeyOf(e) in s.events && s.events[KeyOf(e)] == e && e.state == Pending && !Blank(e.id)
             && e.lastSeen <= t
    ensures var fired := e.(state := Firing, lastSeen := t, firingAt := t, actor := EVALUATOR, since := None);
            Fire(s, e, t) == (Store(s.events[KeyOf(e) := fired], s.audits + [Derived(fired)]), true)
  {
    hide Blank, Carry, Taken;
    EvaluatorIsNamed();
    TransitionIsExact(e, Firing, t, EVALUATOR);
    RecordedIsAccepted(s, Transition(e, Firing, t, EVALUATOR).value.(since := None));
  }

  lemma RaiseIsAccepted(s: Store, e: Event, t: Time)
    requires TableInv(s) && Valid(e) && Follows(Find(s, KeyOf(e)), e) && !Blank(e.id) && e.actor == EVALUATOR
    requires e.state == Pending && e.lastSeen == t
    requires if KeyOf(e) in s.events then s.events[KeyOf(e)].id == e.id && s.events[KeyOf(e)].state != Pending
             else Unused(s, e.scope, e.id)
    ensures var pending := e.(since := None);
            var fired := pending.(state := Firing, firingAt := t);
            RaiseFinding(s, e, t) ==
              (Store(s.events[KeyOf(e) := fired], s.audits + [Derived(pending)] + [Derived(fired)]), true)
  {
    hide Blank, Carry, Fire, TableInv;
    var pending := e.(since := None);
    assert Valid(pending) && Follows(Find(s, KeyOf(e)), pending);
    RecordedIsAccepted(s, pending);
    var s1 := Store(s.events[KeyOf(e) := pending], s.audits + [Derived(pending)]);
    FireIsAccepted(s1, pending, t);
    assert s.events[KeyOf(e) := pending][
             KeyOf(e) := pending.(state := Firing, lastSeen := t, firingAt := t, actor := EVALUATOR, since := None)]
        == s.events[KeyOf(e) := pending.(state := Firing, firingAt := t)];
  }

  /** What a finding looks like once its time is not before the stored last sighting: active means firing or still
      acknowledged, inactive means absent or resolved, and each state it goes through has its audit record. */
  ghost predicate Settled(previous: Option<Event>, active: bool, t: Time, s: Store, s': Store, k: Key) {
    && (forall j :: j != k ==> Find(s', j) == Find(s, j))
    && if active then
         && k in s'.events && s'.events[k].lastSeen == t
         && (if previous.Some? && previous.value.state == Acknowledged then s'.events[k].state == Acknowledged
             else s'.events[k].state == Firing)
         && match if previous.None? then Resolved else previous.value.state {
              case Resolved =>
                && |s'.audits| == |s.audits| + 2 && s.audits <= s'.audits
                && s'.audits[|s.audits|].action == Pending && s'.audits[|s.audits| + 1] == Derived(s'.events[k])
              case Pending => s'.audits == s.audits + [Derived(s'.events[k])]
              case _ => s'.audits == s.audits
            }
       else if previous.None? || previous.value.state == Resolved then s' == s
       else k in s'.events && s'.events[k].state == Resolved && s'.audits == s.audits + [Derived(s'.events[k])]
  }

  /** A system finding agrees with the gate, through both of its writes: it goes through exactly when the truncated time
      is not before the stored last sighting, and changes nothing otherwise. */
  lemma FindingAgreesWithGate(s: Store, rule: Rule, fingerprint: string, active: bool, now: Time, id: string)
    requires Inv(s) && Usable(rule, fingerprint, Truncated(now), id) && Named(s, (rule.scope, fingerprint), id)
    ensures var k := (rule.scope, fingerprint);
            var previous := Find(s, k);
            var result := Reconcile(s, rule, fingerprint, active, now, id);
            && (result.1 <==>
                  previous.None? || previous.value.lastSeen <= Truncated(now)
                  || (!active && previous.value.state == Resolved))
            && (result.1 ==> Settled(previous, active, Truncated(now), s, result.0, k))
            && (!result.1 ==> result.0 == s)
  {
    hide AuditInv, Carry, RaiseFinding, Fire, Blank, Valid, Follows;
    var k := (rule.scope, fingerprint);
    if k !in s.events {
      if active { NewFinding(s, rule, fingerprint, now, id); }
    } else if s.events[k].lastSeen <= Truncated(now) {
      if active { KnownFinding(s, k, Truncated(now)); } else { EndedFinding(s, k, Truncated(now)); }
    } else {
      LateFinding(s, rule, fingerprint, active, now, id);
    }
  }

  lemma NewFinding(s: Store, rule: Rule, fingerprint: string, now: Time, id: string)
    requires TableInv(s) && Usable(rule, fingerprint, Truncated(now), id) && Unused(s, rule.scope, id)
    requires (rule.scope, fingerprint) !in s.events
    ensures var t := Truncated(now);
            var result := RaiseFinding(s, Created(rule, fingerprint, id, t), t);
            result.1 && Settled(None, true, t, s, result.0, (rule.scope, fingerprint))
  {
    hide Blank, RaiseFinding, TableInv;
    EvaluatorIsNamed();
    RaiseIsAccepted(s, Created(rule, fingerprint, id, Truncated(now)), Truncated(now));
  }

  lemma KnownFinding(s: Store, k: Key, t: Time)
    requires TableInv(s) && k in s.events && s.events[k].lastSeen <= t && !Blank(s.events[k].id)
    ensures var e := s.events[k];
            var result := match e.state
                          case Resolved => RaiseFinding(s, Reopened(e, t), t)
                          case Pending => Fire(s, e, t)
                          case _ => Carry(s, Writes(Plain(e.(lastSeen := t, since := None))));
            result.1 && Settled(Some(e), true, t, s, result.0, k)
  {
    hide Blank, RaiseFinding, Fire, Taken, Put;
    EvaluatorIsNamed();
    var e := s.events[k];
    match e.state
    case Resolved => RaiseIsAccepted(s, Reopened(e, t), t);
    case Pending => FireIsAccepted(s, e, t);
    case _ => WriteIsAccepted(s, Plain(e.(lastSeen := t, since := None)));
  }

  lemma EndedFinding(s: Store, k: Key, t: Time)
    requires TableInv(s) && k in s.events && s.events[k].lastSeen <= t && !Blank(s.events[k].id)
    ensures var e := s.events[k];
            e.state != Resolved ==>
              && Transition(e, Resolved, t, EVALUATOR).Ok?
              && var result := Carry(s, Recorded(Transition(e, Resolved, t, EVALUATOR).value.(since := None)));
                 result.1 && Settled(Some(e), false, t, s, result.0, k)
  {
    hide Blank, Carry, Taken;
    EvaluatorIsNamed();
    var e := s.events[k];
    if e.state != Resolved {
      TransitionIsExact(e, Resolved, t, EVALUATOR);
      RecordedIsAccepted(s, Transition(e, Resolved, t, EVALUATOR).value.(since := None));
    }
  }

  lemma LateFinding(s: Store, rule: Rule, fingerprint: string, active: bool, now: Time, id: string)
    requires TableInv(s) && (rule.scope, fingerprint) in s.events
             && Truncated(now) < s.events[(rule.scope, fingerprint)].lastSeen
    ensures var result := Reconcile(s, rule, fingerprint, active, now, id);
            result == (s, !active && s.events[(rule.scope, fingerprint)].state == Resolved)
  {
    hide Blank, Taken, Put, Step;
    var e, t := s.events[(rule.scope, fingerprint)], Truncated(now);
    TransitionIsExact(e, Resolved, t, EVALUATOR);
    TransitionIsExact(e, Firing, t, EVALUATOR);
    if e.state == Resolved { RefusedIsError(s, Recorded(Reopened(e, t).(since := None)).write); }
    RefusedIsError(s, Plain(e.(lastSeen := t, since := None)));
  }

  // ---- Operators -----------------------------------------------------------------------------

  /** An operator acknowledges or resolves a stored event. */
  function Operate(s: Store, k: Key, next: EventState, at: Time, operator: string): Store {
    if k !in s.events then s
    else
      var moved := Transition(s.events[k], next, at, operator);
      if moved.Err? then s else Step(s, Audited(moved.value, Derived(moved.value)))
  }

  // ---- The evaluator's methods ---------------------------------------------------------------

  method WriteTransition(repository: EventRepository, e: Event) returns (written: bool)
    requires Inv(repository.View())
    modifies repository
    ensures Inv(repository.View()) && (repository.View(), written) == Carry(old(repository.View()), Recorded(e))
  {
    hide Inv, Put, Step;
    var error := repository.PutWrite(Audited(e, Audit(e.scope, EVALUATOR, e.state, e.id, e.lastSeen)));
    written := error.None?;
  }

  method ApplyResult(repository: EventRepository, rule: Rule, fingerprint: string, condition: bool,
                     createResolved: bool, now: Time, id: string)
    returns (written: bool)
    requires Inv(repository.View())
    modifies repository
    ensures Inv(repository.View())
    ensures (repository.View(), written) ==
            Apply(old(repository.View()), rule, fingerprint, condition, createResolved, now, id)
  {
    hide Inv, Put, Step, Transition;
    written := false;
    var k := (rule.scope, fingerprint);
    if k !in repository.events {
      if !condition && !createResolved { return; }
      var e := Event(id, rule.scope, rule.id, fingerprint, Pending, now, now, 0, 0, 0, EVALUATOR, None);
      if createResolved {
        e := e.(state := Resolved, resolvedAt := now);
      } else {
        e := e.(since := Some(now));
      }
      written := WriteTransition(repository, e);
      return;
    }
    var e := repository.events[k];
    if condition {
      var since := e.since;
      if e.state == Resolved {
        written := WriteTransition(repository, Reopened(e, now).(since := Some(now)));
        return;
      }
      if e.state == Pending {
        since := Some(if e.since.Some? && e.since.value <= now then e.since.value else e.firstSeen);
        if now - since.value >= rule.hold {
          var fired := Transition(e, Firing, now, EVALUATOR);
          if fired.Ok? { written := WriteTransition(repository, fired.value.(since := since)); }
          return;
        }
      }
      var error := repository.PutWrite(Plain(e.(lastSeen := now, actor := EVALUATOR, since := since)));
      written := error.None?;
      return;
    }
    if e.state == Resolved { return; }
    var resolved := Transition(e, Resolved, now, EVALUATOR);
    if resolved.Ok? { written := WriteTransition(repository, resolved.value.(since := None)); }
  }

  method ReconcileSystemFinding(repository: EventRepository, rule: Rule, fingerprint: string, active: bool, now: Time,
                                id: string)
    returns (ok: bool)
    requires Inv(repository.View())
    modifies repository
    ensures Inv(repository.View())
    ensures (repository.View(), ok) == Reconcile(old(repository.View()), rule, fingerprint, active, now, id)
  {
    hide Inv, Put, Step, Transition;
    ok := true;
    var t, k := Truncated(now), (rule.scope, fingerprint);
    var found := k in repository.events;
    if !active {
      if !found || repository.events[k].state == Resolved { return; }
      var resolved := Transition(repository.events[k], Resolved, t, EVALUATOR);
      if resolved.Err? { return false; }
      ok := WriteTransition(repository, resolved.value.(since := None));
      return;
    }
    var e := if found then repository.events[k] else Created(rule, fingerprint, id, t);
    if !found || e.state == Resolved {
      e := if found then Reopened(e, t).(since := None) else e;
      ok := WriteTransition(repository, e);
      if !ok { return; }
    } else if e.state == Firing || e.state == Acknowledged {
      var error := repository.PutWrite(Plain(e.(lastSeen := t, since := None)));
      return error.None?;
    }
    var fired := Transition(e, Firing, t, EVALUATOR);
    if fired.Err? { return false; }
    ok := WriteTransition(repository, fired.value.(since := None));
  }
}
