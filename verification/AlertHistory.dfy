/** The evaluator against its declarative rule: an event fires when its condition has held for long enough
    (backend/internal/alert/evaluator.go).

    A history is any sequence of evaluation results and operator actions about one event.  The state after it is
    computed by `After`, result by result; `Held` and its companions say it in terms of the whole history. */
module AlertHistory {
  import opened Strings
  import opened Wrappers
  import opened AlertEvents
  import opened AlertEvaluator

  /** One evaluation result, where `missing` is a result that may create a resolved event, or one operator action. */
  datatype Entry =
    | Result(holds: bool, missing: bool, at: Time)
    | Acknowledge(at: Time, operator: string)
    | Resolve(at: Time, operator: string)

  /** What a write makes of the stored event: the gate decides. */
  function Written(previous: Option<Event>, e: Event): Option<Event> {
    if Valid(e) && Gate(previous, e).Some? then Some(e) else previous
  }

  function Operated(previous: Option<Event>, next: EventState, at: Time, operator: string): Option<Event> {
    if previous.None? then None
    else
      var moved := Transition(previous.value, next, at, operator);
      if moved.Ok? then Written(previous, moved.value) else previous
  }

  function Advance(previous: Option<Event>, rule: Rule, fingerprint: string, id: string, x: Entry): Option<Event> {
    match x
    case Result(holds, missing, at) =>
      var v := Judged(previous, rule, fingerprint, holds, missing && !holds, at, id);
      if v.Writes? then Written(previous, v.write.event) else previous
    case Acknowledge(at, operator) => Operated(previous, Acknowledged, at, operator)
    case Resolve(at, operator) => Operated(previous, Resolved, at, operator)
  }

  function After(rule: Rule, fingerprint: string, id: string, h: seq<Entry>): Option<Event> {
    if h == [] then None
    else Advance(After(rule, fingerprint, id, h[..|h| - 1]), rule, fingerprint, id, h[|h| - 1])
  }

  // ---- The rule ------------------------------------------------------------------------------

  predicate Chronological(h: seq<Entry>) {
    && (forall i :: 0 <= i < |h| ==> h[i].at > 0 && (!h[i].Result? ==> !Blank(h[i].operator)))
    && (forall i, j :: 0 <= i <= j < |h| ==> h[i].at <= h[j].at)
  }

  predicate True(x: Entry) {
    x.Result? && x.holds
  }

  /** What ends a run of true results: a result that is not, or an operator who resolves. */
  predicate Breaks(x: Entry) {
    (x.Result? && !x.holds) || x.Resolve?
  }

  /** From the true result `i` on nothing has broken the run. */
  predicate Running(h: seq<Entry>, i: int) {
    0 <= i < |h| && True(h[i]) && forall k :: i < k < |h| ==> !Breaks(h[k])
  }

  /** Two results of the present run lie at least `hold` apart. */
  predicate Held(h: seq<Entry>, hold: nat, i: int, j: int) {
    Running(h, i) && i < j < |h| && True(h[j]) && h[j].at - h[i].at >= hold
  }

  predicate Acked(h: seq<Entry>, hold: nat, i: int, j: int, k: int) {
    Held(h, hold, i, j) && j < k < |h| && h[k].Acknowledge?
  }

  /** Something in the history has created the event. */
  predicate Creates(x: Entry) {
    x.Result? && (x.holds || x.missing)
  }

  /** The state the history calls for. */
  ghost predicate Expected(h: seq<Entry>, hold: nat, e: Option<Event>) {
    && (e.None? <==> forall i :: 0 <= i < |h| ==> !Creates(h[i]))
    && (e.Some? && e.value.state in {Firing, Acknowledged} <==> exists i, j :: Held(h, hold, i, j))
    && (e.Some? && e.value.state == Acknowledged <==> exists i, j, k :: Acked(h, hold, i, j, k))
    && (e.Some? && e.value.state == Pending <==> (exists i :: Running(h, i)) && !exists i, j :: Held(h, hold, i, j))
  }

  // ---- One more entry ------------------------------------------------------------------------

  lemma RunningGrows(h: seq<Entry>, x: Entry)
    ensures forall i :: Running(h + [x], i) <==> (Running(h, i) && !Breaks(x)) || (i == |h| && True(x))
  {
    hide True, Breaks;
    var h' := h + [x];
    forall i: int ensures Running(h', i) <==> (Running(h, i) && !Breaks(x)) || (i == |h| && True(x)) {
      if 0 <= i < |h| {
        assert h'[i] == h[i] && h'[|h|] == x;
        assert (forall k :: i < k < |h'| ==> !Breaks(h'[k])) <==>
          (forall k :: i < k < |h| ==> !Breaks(h[k])) && !Breaks(x) by {
          assert forall k :: i < k < |h| ==> h'[k] == h[k];
        }
      }
    }
  }

  lemma HeldGrows(h: seq<Entry>, hold: nat, x: Entry)
    ensures forall i, j :: Held(h + [x], hold, i, j) <==>
              (Held(h, hold, i, j) && !Breaks(x)) || (Running(h, i) && j == |h| && True(x) && x.at - h[i].at >= hold)
  {
    hide Running;
    RunningGrows(h, x);
    RunningIsIn(h);
  }

  lemma RunningIsIn(h: seq<Entry>)
    ensures forall i :: Running(h, i) ==> 0 <= i < |h|
  {
  }

  lemma AckedGrows(h: seq<Entry>, hold: nat, x: Entry)
    ensures forall i, j, k :: Acked(h + [x], hold, i, j, k) <==>
              (Acked(h, hold, i, j, k) && !Breaks(x)) || (Held(h, hold, i, j) && k == |h| && x.Acknowledge?)
  {
    hide Held;
    HeldGrows(h, hold, x);
    HeldIsIn(h, hold);
  }

  lemma HeldIsIn(h: seq<Entry>, hold: nat)
    ensures forall i, j :: Held(h, hold, i, j) ==> 0 <= i < j < |h| && True(h[j]) && Running(h, i)
  {
  }

  // ---- What the event remembers of its run ---------------------------------------------------

  /** Result `i` is the first of the present run, and no result since then was `hold` later. */
  ghost predicate Opens(h: seq<Entry>, hold: nat, i: int) {
    && Running(h, i)
    && (forall k :: Running(h, k) ==> i <= k)
    && (forall j :: i < j < |h| && True(h[j]) ==> h[j].at - h[i].at < hold)
  }

  /** A pending event knows when its run began. */
  ghost predicate Remembers(h: seq<Entry>, hold: nat, e: Event) {
    exists i :: Opens(h, hold, i) && e.since == Some(h[i].at)
  }

  /** The invariant of the walk through a history. */
  ghost predicate Tracks(h: seq<Entry>, hold: nat, e: Option<Event>) {
    && Expected(h, hold, e)
    && (e.Some? ==> Valid(e.value) && h != [] && e.value.lastSeen <= h[|h| - 1].at)
    && (e.Some? && e.value.state == Pending ==> Remembers(h, hold, e.value))
  }

  // ---- What one entry does to the event ------------------------------------------------------

  /** One entry, state by state. */
  ghost predicate Moves(previous: Option<Event>, hold: nat, x: Entry, next: Option<Event>) {
    match x
    case Result(holds, missing, at) =>
      if holds then
        && next.Some?
        && if previous.None? || previous.value.state == Resolved
           then next.value.state == Pending && next.value.since == Some(at)
           else if previous.value.state == Pending then
             var since := Since(previous.value, at);
             if at - since >= hold then next.value.state == Firing
             else next.value.state == Pending && next.value.since == Some(since)
           else next.value.state == previous.value.state
      else if previous.None? then if missing then next.Some? && next.value.state == Resolved else next.None?
      else next.Some? && next.value.state == Resolved
    case Acknowledge(_, _) =>
      if previous.Some? && previous.value.state == Firing then next.Some? && next.value.state == Acknowledged
      else next == previous
    case Resolve(_, _) => next.Some? == previous.Some? && (next.Some? ==> next.value.state == Resolved)
  }

  /** What one entry does to the sightings: a true result is the latest one, by the evaluator; time never goes back, and
      identity and first sighting stay or are given. */
  ghost predicate Sees(previous: Option<Event>, rule: Rule, fingerprint: string, id: string, x: Entry,
                       next: Option<Event>) {
    && (True(x) ==> next.Some? && next.value.lastSeen == x.at && next.value.actor == EVALUATOR)
    && (previous.Some? ==>
          next.Some? && SameIdentity(previous.value, next.value) && previous.value.lastSeen <= next.value.lastSeen)
    && (previous.None? && next.Some? ==> Creates(x) && Given(next.value, rule, fingerprint, id, x.at))
    && (previous.None? && next.None? ==> !Creates(x))
  }

  predicate Given(e: Event, rule: Rule, fingerprint: string, id: string, first: Time) {
    e.id == id && e.rule == rule.id && KeyOf(e) == (rule.scope, fingerprint) && e.firstSeen == first
  }

  /** The stored event is in order and not newer than the entry. */
  ghost predicate Ready(e: Option<Event>, at: Time) {
    e.Some? ==> Valid(e.value) && e.value.lastSeen <= at
  }

  lemma WrittenIs(previous: Option<Event>, e: Event)
    requires Valid(e) && Follows(previous, e) && (previous.Some? ==> Valid(previous.value))
    ensures Written(previous, e) == Some(e)
  {
    hide Valid, Follows, Gate;
    GateIsExact(previous, e);
  }

  lemma ResultMoves(previous: Option<Event>, rule: Rule, fingerprint: string, id: string, x: Entry)
    requires x.Result? && Usable(rule, fingerprint, x.at, id) && Ready(previous, x.at)
    requires previous.Some? ==> KeyOf(previous.value) == (rule.scope, fingerprint)
    ensures var next := Advance(previous, rule, fingerprint, id, x);
            Moves(previous, rule.hold, x, next) && Ready(next, x.at) && Sees(previous, rule, fingerprint, id, x, next)
  {
    hide Blank, Follows, Written;
    var create := x.missing && !x.holds;
    var v := Judged(previous, rule, fingerprint, x.holds, create, x.at, id);
    JudgedSights(previous, rule, fingerprint, x.holds, create, x.at, id);
    if previous.None? {
      OpeningFollows(rule, fingerprint, x.holds, create, x.at, id);
    } else {
      TransitionIsExact(previous.value, Firing, x.at, EVALUATOR);
      TransitionIsExact(previous.value, Resolved, x.at, EVALUATOR);
      if v != Nothing { JudgedFollows(previous.value, rule, fingerprint, x.holds, create, x.at, id); }
    }
    if v.Writes? { WrittenIs(previous, v.write.event); }
  }

  lemma OperatorMoves(previous: Option<Event>, rule: Rule, fingerprint: string, id: string, x: Entry)
    requires !x.Result? && x.at > 0 && !Blank(x.operator) && Ready(previous, x.at)
    ensures var next := Advance(previous, rule, fingerprint, id, x);
            Moves(previous, rule.hold, x, next) && Ready(next, x.at) && Sees(previous, rule, fingerprint, id, x, next)
  {
    hide Blank, Written;
    if previous.Some? {
      var state := if x.Acknowledge? then Acknowledged else Resolved;
      TransitionIsExact(previous.value, state, x.at, x.operator);
      var moved := Transition(previous.value, state, x.at, x.operator);
      if moved.Ok? { WrittenIs(previous, moved.value); }
    }
  }

  // ---- What one entry does to the history ----------------------------------------------------

  lemma ChronologicalFront(h: seq<Entry>, x: Entry)
    requires Chronological(h + [x])
    ensures Chronological(h) && x.at > 0 && (!x.Result? ==> !Blank(x.operator)) && (h != [] ==> h[|h| - 1].at <= x.at)
    ensures forall i :: 0 <= i < |h| ==> h[i].at <= x.at
  {
    hide Blank;
    var h' := h + [x];
    assert forall i :: 0 <= i < |h| ==> h'[i] == h[i];
    assert h'[|h|] == x;
  }

  /** Nothing runs when the event is absent or resolved. */
  lemma NothingRuns(h: seq<Entry>, hold: nat, e: Option<Event>)
    requires Expected(h, hold, e) && (e.None? || e.value.state == Resolved)
    ensures forall i :: !Running(h, i)
    ensures forall i, j :: !Held(h, hold, i, j)
  {
    hide Running, Held;
  }

  lemma CreatesGrows(h: seq<Entry>, x: Entry)
    ensures (forall i :: 0 <= i < |h| + 1 ==> !Creates((h + [x])[i])) <==>
              (forall i :: 0 <= i < |h| ==> !Creates(h[i])) && !Creates(x)
  {
    hide Creates;
    var h' := h + [x];
    assert forall i :: 0 <= i < |h| ==> h'[i] == h[i];
    assert h'[|h|] == x;
  }

  /** A true result starts a run. */
  lemma StartTracks(h: seq<Entry>, hold: nat, e: Option<Event>, x: Entry, next: Option<Event>)
    requires Tracks(h, hold, e) && Chronological(h + [x]) && True(x) && Moves(e, hold, x, next) && Ready(next, x.at)
    requires e.None? || e.value.state == Resolved
    ensures Tracks(h + [x], hold, next)
  {
    hide Valid, Running, Held, Acked, Chronological;
    NothingRuns(h, hold, e);
    RunningGrows(h, x); HeldGrows(h, hold, x); AckedGrows(h, hold, x); CreatesGrows(h, x); AckedIsHeld(h, hold);
    assert Running(h + [x], |h|) && (h + [x])[|h|] == x;
    assert Opens(h + [x], hold, |h|);
  }

  lemma AckedIsHeld(h: seq<Entry>, hold: nat)
    ensures forall i, j, k :: Acked(h, hold, i, j, k) ==> Held(h, hold, i, j)
  {
    hide Held;
  }

  lemma OpensLonger(h: seq<Entry>, hold: nat, i: int, x: Entry)
    requires Opens(h, hold, i) && !Breaks(x) && (True(x) ==> x.at - h[i].at < hold)
    ensures Opens(h + [x], hold, i) && (h + [x])[i] == h[i]
  {
    hide Running;
    RunningIsIn(h);
    RunningGrows(h, x);
    var h' := h + [x];
    assert forall j :: 0 <= j < |h| ==> h'[j] == h[j];
    assert h'[|h|] == x;
  }

  /** A true result in a run that has not held long enough yet, and still has not. */
  lemma PendingTracks(h: seq<Entry>, hold: nat, e: Option<Event>, x: Entry, next: Option<Event>, i: int)
    requires Tracks(h, hold, e) && Chronological(h + [x]) && True(x) && Moves(e, hold, x, next) && Ready(next, x.at)
    requires e.Some? && e.value.state == Pending && Opens(h, hold, i) && e.value.since == Some(h[i].at)
             && x.at - h[i].at < hold
    ensures Tracks(h + [x], hold, next)
  {
    hide Valid, Running, Held, Acked, Blank;
    ChronologicalFront(h, x);
    RunningIsIn(h);
    RunningGrows(h, x); HeldGrows(h, hold, x); AckedGrows(h, hold, x); CreatesGrows(h, x); AckedIsHeld(h, hold);
    OpensLonger(h, hold, i, x);
    assert forall k :: Running(h, k) ==> h[i].at <= h[k].at;
    assert Expected(h + [x], hold, next);
  }

  /** The true result by which a run has held long enough. */
  lemma FireTracks(h: seq<Entry>, hold: nat, e: Option<Event>, x: Entry, next: Option<Event>, i: int)
    requires Tracks(h, hold, e) && Chronological(h + [x]) && True(x) && Moves(e, hold, x, next) && Ready(next, x.at)
    requires e.Some? && e.value.state == Pending && Opens(h, hold, i) && e.value.since == Some(h[i].at)
             && x.at - h[i].at >= hold
    ensures Tracks(h + [x], hold, next)
  {
    hide Valid, Running, Held, Acked, Blank;
    ChronologicalFront(h, x);
    RunningIsIn(h);
    RunningGrows(h, x); HeldGrows(h, hold, x); AckedGrows(h, hold, x); CreatesGrows(h, x); AckedIsHeld(h, hold);
    assert Held(h + [x], hold, i, |h|);
    assert Expected(h + [x], hold, next);
  }

  /** A true result while the event is firing or acknowledged. */
  lemma FiringTracks(h: seq<Entry>, hold: nat, e: Option<Event>, x: Entry, next: Option<Event>)
    requires Tracks(h, hold, e) && Chronological(h + [x]) && True(x) && Moves(e, hold, x, next) && Ready(next, x.at)
    requires e.Some? && e.value.state in {Firing, Acknowledged}
    ensures Tracks(h + [x], hold, next)
  {
    hide Valid, Running, Held, Acked, Chronological;
    RunningGrows(h, x); HeldGrows(h, hold, x); AckedGrows(h, hold, x); CreatesGrows(h, x);
    var i, j :| Held(h, hold, i, j);
    assert Held(h + [x], hold, i, j);
    if e.value.state == Acknowledged {
      var i', j', k :| Acked(h, hold, i', j', k);
      assert Acked(h + [x], hold, i', j', k);
    }
  }

  lemma AcknowledgeTracks(h: seq<Entry>, hold: nat, e: Option<Event>, x: Entry, next: Option<Event>)
    requires Tracks(h, hold, e) && Chronological(h + [x]) && x.Acknowledge? && Moves(e, hold, x, next)
             && Ready(next, x.at)
    ensures Tracks(h + [x], hold, next)
  {
    hide Valid, Running, Held, Acked, Blank;
    ChronologicalFront(h, x);
    var h' := h + [x];
    RunningGrows(h, x); HeldGrows(h, hold, x); AckedGrows(h, hold, x); CreatesGrows(h, x); AckedIsHeld(h, hold);
    if exists i, j :: Held(h, hold, i, j) {
      var i, j :| Held(h, hold, i, j);
      assert Held(h', hold, i, j) && Acked(h', hold, i, j, |h|);
    }
    assert forall i :: Running(h', i) <==> Running(h, i);
    assert Expected(h', hold, next);
    if e.Some? && e.value.state == Pending { RemembersLonger(h, hold, e.value, x); }
  }

  lemma RemembersLonger(h: seq<Entry>, hold: nat, e: Event, x: Entry)
    requires Remembers(h, hold, e) && x.Acknowledge?
    ensures Remembers(h + [x], hold, e)
  {
    hide Opens;
    OpensIsIn(h, hold);
    var i :| Opens(h, hold, i) && e.since == Some(h[i].at);
    OpensLonger(h, hold, i, x);
  }

  lemma OpensIsIn(h: seq<Entry>, hold: nat)
    ensures forall i :: Opens(h, hold, i) ==> 0 <= i < |h|
  {
  }

  /** A break leaves nothing running. */
  lemma BreakTracks(h: seq<Entry>, hold: nat, e: Option<Event>, x: Entry, next: Option<Event>)
    requires Tracks(h, hold, e) && Chronological(h + [x]) && Breaks(x) && Moves(e, hold, x, next) && Ready(next, x.at)
    ensures Tracks(h + [x], hold, next)
  {
    hide Valid, Running, Held, Acked, Chronological;
    RunningGrows(h, x); HeldGrows(h, hold, x); AckedGrows(h, hold, x); CreatesGrows(h, x);
  }

  /** The event has been seen at every true result, and first at the entry that created it, whose identifier and rule it
      has. */
  ghost predicate Sighted(h: seq<Entry>, rule: Rule, fingerprint: string, id: string, e: Option<Event>) {
    && (e.None? ==> forall i :: 0 <= i < |h| ==> !Creates(h[i]))
    && (e.Some? ==>
          && (forall i :: 0 <= i < |h| && True(h[i]) ==> h[i].at <= e.value.lastSeen)
          && exists i :: CreatedAt(h, i) && Given(e.value, rule, fingerprint, id, h[i].at))
  }

  predicate CreatedAt(h: seq<Entry>, i: int) {
    0 <= i < |h| && Creates(h[i]) && forall j :: 0 <= j < i ==> !Creates(h[j])
  }

  lemma SightedGrows(h: seq<Entry>, rule: Rule, fingerprint: string, id: string, e: Option<Event>, x: Entry,
                     next: Option<Event>)
    requires Sighted(h, rule, fingerprint, id, e) && Sees(e, rule, fingerprint, id, x, next)
    ensures Sighted(h + [x], rule, fingerprint, id, next)
  {
    var h' := h + [x];
    assert forall i :: 0 <= i < |h| ==> h'[i] == h[i];
    assert h'[|h|] == x;
    if next.Some? {
      if e.Some? {
        var i :| CreatedAt(h, i) && Given(e.value, rule, fingerprint, id, h[i].at);
        assert CreatedAt(h', i) && Given(next.value, rule, fingerprint, id, h'[i].at);
      } else {
        assert CreatedAt(h', |h|) && Given(next.value, rule, fingerprint, id, h'[|h|].at);
      }
    }
  }

  lemma SightedKey(h: seq<Entry>, rule: Rule, fingerprint: string, id: string, e: Option<Event>)
    requires Sighted(h, rule, fingerprint, id, e) && e.Some?
    ensures KeyOf(e.value) == (rule.scope, fingerprint)
  {
  }

  /** One more entry, whichever it is. */
  lemma EntryTracks(h: seq<Entry>, hold: nat, e: Option<Event>, x: Entry, next: Option<Event>)
    requires Tracks(h, hold, e) && Chronological(h + [x]) && Moves(e, hold, x, next) && Ready(next, x.at)
    ensures Tracks(h + [x], hold, next)
  {
    hide Tracks, Moves, Chronological, Ready;
    if True(x) {
      if e.None? || e.value.state == Resolved { StartTracks(h, hold, e, x, next); }
      else if e.value.state == Pending {
        var i := PendingOpens(h, hold, e);
        if x.at - h[i].at >= hold { FireTracks(h, hold, e, x, next, i); }
        else { PendingTracks(h, hold, e, x, next, i); }
      }
      else { FiringTracks(h, hold, e, x, next); }
    } else if x.Acknowledge? {
      AcknowledgeTracks(h, hold, e, x, next);
    } else {
      BreakTracks(h, hold, e, x, next);
    }
  }

  /** For every history of results and operator actions at non-decreasing times, the event is in the state the history
      calls for: firing or acknowledged exactly when two results of the present run lie `hold` apart,
      acknowledged exactly when an acknowledgement came after that, pending exactly when a run has not held
      that long, and resolved or absent when nothing runs.  It has been seen at every true result, and first when it was
      created. */
  lemma {:induction false} EvaluatorFollowsRule(rule: Rule, fingerprint: string, id: string, h: seq<Entry>)
    requires Usable(rule, fingerprint, 1, id) && Chronological(h)
    ensures Tracks(h, rule.hold, After(rule, fingerprint, id, h))
    ensures Sighted(h, rule, fingerprint, id, After(rule, fingerprint, id, h))
  {
    hide Blank, Tracks, Moves, Valid, Advance, Sighted, Sees;
    if h == [] {
      EmptyTracks(rule.hold);
      EmptySighted(rule, fingerprint, id);
    } else {
      var front, x := h[..|h| - 1], h[|h| - 1];
      assert h == front + [x];
      ChronologicalFront(front, x);
      EvaluatorFollowsRule(rule, fingerprint, id, front);
      var e := After(rule, fingerprint, id, front);
      TracksIsReady(front, rule.hold, e, x);
      if e.Some? { SightedKey(front, rule, fingerprint, id, e); }
      if x.Result? { ResultMoves(e, rule, fingerprint, id, x); } else { OperatorMoves(e, rule, fingerprint, id, x); }
      var next := Advance(e, rule, fingerprint, id, x);
      SightedGrows(front, rule, fingerprint, id, e, x, next);
      EntryTracks(front, rule.hold, e, x, next);
    }
  }

  lemma PendingOpens(h: seq<Entry>, hold: nat, e: Option<Event>) returns (i: int)
    requires Tracks(h, hold, e) && e.Some? && e.value.state == Pending
    ensures 0 <= i < |h| && Opens(h, hold, i) && e.value.since == Some(h[i].at)
  {
    hide Opens, Expected, Valid;
    OpensIsIn(h, hold);
    i :| Opens(h, hold, i) && e.value.since == Some(h[i].at);
  }

  lemma EmptySighted(rule: Rule, fingerprint: string, id: string)
    ensures Sighted([], rule, fingerprint, id, None)
  {
  }

  lemma EmptyTracks(hold: nat)
    ensures Tracks([], hold, None)
  {
  }

  lemma TracksIsReady(h: seq<Entry>, hold: nat, e: Option<Event>, x: Entry)
    requires Tracks(h, hold, e) && (h != [] ==> h[|h| - 1].at <= x.at)
    ensures Ready(e, x.at)
  {
    hide Valid, Expected, Remembers;
  }

  // ---- The same of the stored tables ---------------------------------------------------------

  function Record(s: Store, rule: Rule, fingerprint: string, id: string, x: Entry): Store {
    match x
    case Result(holds, missing, at) => Apply(s, rule, fingerprint, holds, missing && !holds, at, id).0
    case Acknowledge(at, operator) => Operate(s, (rule.scope, fingerprint), Acknowledged, at, operator)
    case Resolve(at, operator) => Operate(s, (rule.scope, fingerprint), Resolved, at, operator)
  }

  /** What happens to the tables: an entry of the event's own history, or any write of anybody about something else. */
  datatype Happening = About(entry: Entry) | Elsewhere(write: Write)

  /** The event's own history. */
  function OwnHistory(hs: seq<Happening>): seq<Entry> {
    if hs == [] then []
    else OwnHistory(hs[..|hs| - 1]) + (if hs[|hs| - 1].About? then [hs[|hs| - 1].entry] else [])
  }

  function Happen(s: Store, rule: Rule, fingerprint: string, id: string, x: Happening): Store {
    match x
    case About(entry) => Record(s, rule, fingerprint, id, entry)
    case Elsewhere(w) => Step(s, w)
  }

  function StoreAfter(s: Store, rule: Rule, fingerprint: string, id: string, hs: seq<Happening>): Store {
    if hs == [] then s
    else Happen(StoreAfter(s, rule, fingerprint, id, hs[..|hs| - 1]), rule, fingerprint, id, hs[|hs| - 1])
  }

  /** The write is about another key and another identifier. */
  predicate Foreign(x: Happening, rule: Rule, fingerprint: string, id: string) {
    x.Elsewhere? ==>
      KeyOf(x.write.event) != (rule.scope, fingerprint) && (x.write.event.scope, x.write.event.id) != (rule.scope, id)
  }

  /** Missing data is a result like any other, as the rule says: one that holds, one that does not and may create a
      resolved event, or none at all. */
  lemma MissingDataIsResult(s: Store, rule: Rule, fingerprint: string, id: string, now: Time)
    ensures ApplyMissing(s, rule, fingerprint, now, id).0 ==
            match rule.missing
            case RaiseAlert => Record(s, rule, fingerprint, id, Result(true, false, now))
            case Recover => Record(s, rule, fingerprint, id, Result(false, true, now))
            case _ => s
  {
  }

  lemma ResultIsRecorded(s: Store, rule: Rule, fingerprint: string, id: string, x: Entry)
    requires x.Result? && Inv(s) && Usable(rule, fingerprint, x.at, id) && Named(s, (rule.scope, fingerprint), id)
    requires Ready(Find(s, (rule.scope, fingerprint)), x.at)
    ensures var s' := Record(s, rule, fingerprint, id, x);
            Find(s', (rule.scope, fingerprint)) == Advance(Find(s, (rule.scope, fingerprint)), rule, fingerprint, id, x)
            && Named(s', (rule.scope, fingerprint), id) && Inv(s')
  {
    hide Inv, Blank, Valid, Follows, Judged, Gate, Put, Step;
    var k := (rule.scope, fingerprint);
    var create := x.missing && !x.holds;
    var v := Judged(Find(s, k), rule, fingerprint, x.holds, create, x.at, id);
    EvaluatorAgreesWithGate(s, rule, fingerprint, x.holds, create, x.at, id);
    TableOf(s);
    JudgedAgrees(s, rule, fingerprint, x.holds, create, x.at, id);
    if v.Writes? {
      StepKeepsInv(s, v.write);
      WrittenIs(Find(s, k), v.write.event);
    }
  }

  lemma TableOf(s: Store)
    requires Inv(s)
    ensures TableInv(s)
  {
  }

  lemma OperatorIsRecorded(s: Store, rule: Rule, fingerprint: string, id: string, x: Entry)
    requires !x.Result? && x.at > 0 && !Blank(x.operator) && Inv(s) && Named(s, (rule.scope, fingerprint), id)
    requires Ready(Find(s, (rule.scope, fingerprint)), x.at)
    ensures var s' := Record(s, rule, fingerprint, id, x);
            Find(s', (rule.scope, fingerprint)) == Advance(Find(s, (rule.scope, fingerprint)), rule, fingerprint, id, x)
            && Named(s', (rule.scope, fingerprint), id) && Inv(s')
  {
    hide AuditInv, Blank, Put, Step, Written, Taken;
    var k := (rule.scope, fingerprint);
    if k in s.events {
      var e := s.events[k];
      var state := if x.Acknowledge? then Acknowledged else Resolved;
      TransitionIsExact(e, state, x.at, x.operator);
      var moved := Transition(e, state, x.at, x.operator);
      if moved.Ok? {
        var w := Audited(moved.value, Derived(moved.value));
        WrittenIs(Some(e), moved.value);
        WriteIsAccepted(s, w);
        StepKeepsInv(s, w);
      }
    }
  }

  /** A write about another key and identifier leaves the event as it is, and its identifier free if there is no
      event. */
  lemma ForeignWriteLeaves(s: Store, rule: Rule, fingerprint: string, id: string, x: Happening)
    requires Inv(s) && x.Elsewhere? && Foreign(x, rule, fingerprint, id) && Named(s, (rule.scope, fingerprint), id)
    ensures var s' := Step(s, x.write);
            Find(s', (rule.scope, fingerprint)) == Find(s, (rule.scope, fingerprint))
              && Named(s', (rule.scope, fingerprint), id) && Inv(s')
  {
    hide Inv, Mutate, Blank, Follows, Valid;
    var w := x.write;
    var supplied := if w.Audited? then Some(w.audit) else None;
    StepKeepsInv(s, w);
    TableOf(s);
    if Put(s, w).Ok? {
      assert Put(s, w) == Mutate(s, w.event, supplied);
      MutateWrites(s, w.event, supplied);
    }
  }

  /** The stored event is the one a history calls for, in sound tables. */
  ghost predicate Mirrors(s: Store, rule: Rule, fingerprint: string, id: string, h: seq<Entry>) {
    && Find(s, (rule.scope, fingerprint)) == After(rule, fingerprint, id, h)
    && Inv(s) && Named(s, (rule.scope, fingerprint), id)
  }

  lemma EntryMirrors(s: Store, rule: Rule, fingerprint: string, id: string, h: seq<Entry>, x: Entry)
    requires Mirrors(s, rule, fingerprint, id, h) && Usable(rule, fingerprint, 1, id) && Chronological(h + [x])
    ensures Mirrors(Record(s, rule, fingerprint, id, x), rule, fingerprint, id, h + [x])
  {
    hide Inv, Blank, Valid, Advance, Record, Tracks, Sighted, Named, After;
    ChronologicalFront(h, x);
    EvaluatorFollowsRule(rule, fingerprint, id, h);
    TracksIsReady(h, rule.hold, After(rule, fingerprint, id, h), x);
    AfterGrows(rule, fingerprint, id, h, x);
    if x.Result? { ResultIsRecorded(s, rule, fingerprint, id, x); }
      else { OperatorIsRecorded(s, rule, fingerprint, id, x); }
  }

  lemma ElsewhereMirrors(s: Store, rule: Rule, fingerprint: string, id: string, h: seq<Entry>, x: Happening)
    requires Mirrors(s, rule, fingerprint, id, h) && x.Elsewhere? && Foreign(x, rule, fingerprint, id)
    ensures Mirrors(Step(s, x.write), rule, fingerprint, id, h)
  {
    hide Inv, Named, After, Step, Foreign;
    ForeignWriteLeaves(s, rule, fingerprint, id, x);
  }

  lemma NothingMirrors(s: Store, rule: Rule, fingerprint: string, id: string)
    requires Inv(s) && (rule.scope, fingerprint) !in s.events && Unused(s, rule.scope, id)
    ensures Mirrors(s, rule, fingerprint, id, [])
  {
    hide Inv;
  }

  lemma HistoryGrows(hs: seq<Happening>, x: Happening)
    ensures OwnHistory(hs + [x]) == if x.About? then OwnHistory(hs) + [x.entry] else OwnHistory(hs)
  {
    assert (hs + [x])[..|hs|] == hs;
  }

  /** The stored event after any history is the one `After` computes, whatever is written about other events in between,
      and the tables stay sound. */
  lemma {:induction false} StoreFollowsHistory(s: Store, rule: Rule, fingerprint: string, id: string,
                                               hs: seq<Happening>)
    requires Inv(s) && (rule.scope, fingerprint) !in s.events && Unused(s, rule.scope, id)
    requires Usable(rule, fingerprint, 1, id) && Chronological(OwnHistory(hs))
    requires forall i :: 0 <= i < |hs| ==> Foreign(hs[i], rule, fingerprint, id)
    ensures Mirrors(StoreAfter(s, rule, fingerprint, id, hs), rule, fingerprint, id, OwnHistory(hs))
  {
    hide Inv, Usable, Mirrors, Record, Foreign, Step, OwnHistory, Chronological, Unused;
    if hs == [] {
      NothingMirrors(s, rule, fingerprint, id);
      NoHistory();
    } else {
      var front, x := hs[..|hs| - 1], hs[|hs| - 1];
      assert hs == front + [x];
      HistoryGrows(front, x);
      if x.About? { ChronologicalFront(OwnHistory(front), x.entry); }
      StoreFollowsHistory(s, rule, fingerprint, id, front);
      var before := StoreAfter(s, rule, fingerprint, id, front);
      if x.About? { EntryMirrors(before, rule, fingerprint, id, OwnHistory(front), x.entry); }
      else { ElsewhereMirrors(before, rule, fingerprint, id, OwnHistory(front), x); }
    }
  }

  lemma NoHistory()
    ensures OwnHistory([]) == []
  {
  }

  lemma AfterGrows(rule: Rule, fingerprint: string, id: string, h: seq<Entry>, x: Entry)
    ensures After(rule, fingerprint, id, h + [x]) == Advance(After(rule, fingerprint, id, h), rule, fingerprint, id, x)
  {
    hide Advance;
    assert (h + [x])[..|h|] == h;
  }
}
