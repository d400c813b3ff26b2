/** Notification deliveries under expiring leases (backend/internal/alert/notification.go and the delivery statements of
    backend/internal/alert/postgres.go).

    A delivery is one row.  Whoever reserves or claims it works on a copy of the row, numbered by the attempt the row
    counted at that moment, and writes back with an update that only asks whether the row is still being
    attempted by the same worker.  Any number of workers run, one worker may hold several copies, a copy may
    be lost at any time, and times are in seconds. */
module DeliveryLeases {
  import opened Wrappers
  import Canonical

  type Key = string
  type Worker = string
  type Time = nat

  const LEASE: nat := 30

  datatype Status = Attempting | Delivered | Suppressed | RetryScheduled | Abandoned

  datatype Row = Row(status: Status, attempts: nat, owner: Option<Worker>, expires: Time, nextAttempt: Time)

  datatype Outcome = Good | Retryable | Fatal

  /** Where the work on a copy has got to. */
  datatype Phase =
    | Claimed               // RetryDue: about to look for the channel
    | Misconfigured         // recordConfigurationFailure: reserved, about to abandon
    | Ready                 // finishAttempt: about to call the channel
    | Sent(outcome: Outcome)
    | Finished              // written back, refused, or lost

  datatype Copy = Copy(owner: Worker, expires: Time, phase: Phase)

  datatype Act = IsSuppressed | IsDelivered | IsRetrying | IsRescheduled | IsAbandoned

  /** An audit record: the audit identifier is made from these three. */
  datatype Audit = Audit(key: Key, act: Act, attempt: nat)

  datatype State = State(
    rows: map<Key, Row>, copies: map<(Key, nat), Copy>, audits: seq<Audit>,
    calls: seq<(Key, nat)>,            // channel calls made
    replies: map<(Key, nat), Outcome>, // and how they ended
    expiries: map<Key, nat>)           // claims of a row whose lease had run out

  datatype Action =
    | Suppress(key: Key)
    | Reserve(key: Key, worker: Worker, now: Time, configured: bool)
    | Claim(key: Key, worker: Worker, now: Time)
    | DropChannel(key: Key, attempt: nat)
    | MarkRetrying(key: Key, attempt: nat)
    | Send(key: Key, attempt: nat, outcome: Outcome)
    | Finish(key: Key, attempt: nat, at: Time)
    | AbandonMisconfigured(key: Key, attempt: nat)
    | Lose(key: Key, attempt: nat)

  // ---- Single statements ---------------------------------------------------------------------

  /** The waiting times after the first three attempts. */
  function RetryDelay(attempt: nat): nat
    requires 1 <= attempt <= 3
  {
    [60, 300, 1800][attempt - 1]
  }

  predicate Due(row: Row, now: Time) {
    (row.status == RetryScheduled && row.nextAttempt <= now) || (row.status == Attempting && row.expires <= now)
  }

  /** The row an update by this copy would find. */
  predicate Updatable(s: State, key: Key, worker: Worker) {
    key in s.rows && s.rows[key].status == Attempting && s.rows[key].owner == Some(worker)
  }

  function ExpiriesOf(s: State, key: Key): nat {
    if key in s.expiries then s.expiries[key] else 0
  }

  function CopyOf(s: State, key: Key, n: nat): Copy {
    if (key, n) in s.copies then s.copies[(key, n)] else Copy("", 0, Finished)
  }

  /** What a copy becomes after its channel call: `Attempts` in the row is never written back. */
  function Outcomes(row: Row, n: nat, outcome: Outcome, at: Time): (Row, Act) {
    if outcome.Good? then (row.(status := Delivered, owner := None, expires := 0, nextAttempt := 0), IsDelivered)
    else if outcome.Retryable? && 1 <= n <= 3 then
      (row.(status := RetryScheduled, owner := None, expires := 0, nextAttempt := at + RetryDelay(n)), IsRescheduled)
    else (row.(status := Abandoned, owner := None, expires := 0, nextAttempt := 0), IsAbandoned)
  }

  function RowOf(s: State, key: Key): Row {
    if key in s.rows then s.rows[key] else Row(Suppressed, 0, None, 0, 0)
  }

  /** The copy is still being worked on. */
  predicate Live(s: State, key: Key, n: nat) {
    (key, n) in s.copies && s.copies[(key, n)].phase != Finished
  }

  // ---- Steps ---------------------------------------------------------------------------------

  function SuppressStep(s: State, key: Key): State {
    if key in s.rows then s
    else s.(rows := s.rows[key := Row(Suppressed, 1, None, 0, 0)], audits := s.audits + [Audit(key, IsSuppressed, 1)])
  }

  /** The first attempt; the lease is on the row and on the copy. */
  function ReserveStep(s: State, key: Key, worker: Worker, now: Time, configured: bool): State {
    if key in s.rows then s
    else
      var copy := Copy(worker, now + LEASE, if configured then Ready else Misconfigured);
      s.(rows := s.rows[key := Row(Attempting, 1, Some(worker), now + LEASE, 0)], copies := s.copies[(key, 1) := copy])
  }

  function ClaimStep(s: State, key: Key, worker: Worker, now: Time): State {
    if key !in s.rows || !Due(s.rows[key], now) then s
    else
      var row := s.rows[key];
      var expiries := if row.status == Attempting then s.expiries[key := ExpiriesOf(s, key) + 1] else s.expiries;
      State(s.rows[key := Row(Attempting, row.attempts + 1, Some(worker), now + LEASE, 0)],
            s.copies[(key, row.attempts + 1) := Copy(worker, now + LEASE, Claimed)], s.audits, s.calls, s.replies,
              expiries)
  }

  /** Work on a copy: it moves to another phase, and an update that finds its row writes it with an audit record. */
  function Work(s: State, key: Key, n: nat, phase: Phase, write: Option<(Row, Act)>): State {
    var copies := s.copies[(key, n) := CopyOf(s, key, n).(phase := phase)];
    if write.None? then s.(copies := copies)
    else s.(rows := s.rows[key := write.value.0], copies := copies, audits := s.audits + [Audit(key, write.value.1, n)])
  }

  /** The update a copy makes, if its row is still there for it. */
  function Update(s: State, key: Key, n: nat, row: Row, act: Act): Option<(Row, Act)> {
    if Updatable(s, key, CopyOf(s, key, n).owner) then Some((row, act)) else None
  }

  /** The abandoned row; after a configuration failure the lease stays on it. */
  function AbandonedRow(s: State, key: Key, n: nat): Row {
    if CopyOf(s, key, n).phase.Misconfigured? then RowOf(s, key).(status := Abandoned, nextAttempt := 0)
    else RowOf(s, key).(status := Abandoned, owner := None, expires := 0, nextAttempt := 0)
  }

  function AbandonStep(s: State, key: Key, n: nat): State {
    Work(s, key, n, Finished, Update(s, key, n, AbandonedRow(s, key, n), IsAbandoned))
  }

  function MarkStep(s: State, key: Key, n: nat): State {
    var write := Update(s, key, n, RowOf(s, key).(expires := CopyOf(s, key, n).expires, nextAttempt := 0), IsRetrying);
    Work(s, key, n, if write.Some? then Ready else Finished, write)
  }

  function SendStep(s: State, key: Key, n: nat, outcome: Outcome): State {
    Work(s, key, n, Sent(outcome), None).(calls := s.calls + [(key, n)], replies := s.replies[(key, n) := outcome])
  }

  function FinishStep(s: State, key: Key, n: nat, outcome: Outcome, at: Time): State {
    var result := Outcomes(RowOf(s, key), n, outcome, at);
    Work(s, key, n, Finished, Update(s, key, n, result.0, result.1))
  }

  predicate At(s: State, key: Key, n: nat, phase: Phase) {
    (key, n) in s.copies && s.copies[(key, n)].phase == phase
  }

  function Step(s: State, a: Action): State {
    match a
    case Suppress(key) => SuppressStep(s, key)
    case Reserve(key, worker, now, configured) => ReserveStep(s, key, worker, now, configured)
    case Claim(key, worker, now) => ClaimStep(s, key, worker, now)
    case DropChannel(key, n) => if At(s, key, n, Claimed) then AbandonStep(s, key, n) else s
    case MarkRetrying(key, n) => if At(s, key, n, Claimed) then MarkStep(s, key, n) else s
    case Send(key, n, outcome) => if At(s, key, n, Ready) then SendStep(s, key, n, outcome) else s
    case Finish(key, n, at) =>
      if (key, n) in s.copies && s.copies[(key, n)].phase.Sent?
      then FinishStep(s, key, n, s.copies[(key, n)].phase.outcome, at)
      else s
    case AbandonMisconfigured(key, n) => if At(s, key, n, Misconfigured) then AbandonStep(s, key, n) else s
    case Lose(key, n) => if (key, n) in s.copies then Work(s, key, n, Finished, None) else s
  }

  function Run(s: State, actions: seq<Action>): State {
    if actions == [] then s else Step(Run(s, actions[..|actions| - 1]), actions[|actions| - 1])
  }

  function Empty(): State {
    State(map[], map[], [], [], map[], map[])
  }

  // ---- Invariants ----------------------------------------------------------------------------

  /** Every copy has one of the attempts its row has counted. */
  ghost predicate CopyInv(s: State) {
    && (forall k :: k in s.rows ==> 1 <= s.rows[k].attempts)
    && (forall k, n :: (k, n) in s.copies ==> k in s.rows && 1 <= n <= s.rows[k].attempts)
  }

  ghost predicate NoRepeats<T>(list: seq<T>) {
    forall i, j :: 0 <= i < j < |list| ==> list[i] != list[j]
  }

  /** A call was made by a copy that is past its call. */
  ghost predicate CallInv(s: State) {
    && NoRepeats(s.calls)
    && (forall c :: c in s.calls ==> c in s.copies && (s.copies[c].phase.Sent? || s.copies[c].phase.Finished?))
  }

  /** How far the copy of an audited attempt has to be. */
  predicate Told(s: State, a: Audit) {
    && a.key in s.rows
    && match a.act
       case IsSuppressed => s.rows[a.key].status == Suppressed
       case IsRetrying =>
         (a.key, a.attempt) in s.copies && s.copies[(a.key, a.attempt)].phase !in {Claimed, Misconfigured}
       case IsRescheduled =>
         (a.key, a.attempt) in s.copies && s.copies[(a.key, a.attempt)].phase.Finished? && a.attempt <= 3
       case _ => (a.key, a.attempt) in s.copies && s.copies[(a.key, a.attempt)].phase.Finished?
  }

  ghost predicate AuditInv(s: State) {
    NoRepeats(s.audits) && forall a :: a in s.audits ==> Told(s, a)
  }

  /** A suppressed delivery has no copies. */
  ghost predicate SuppressInv(s: State) {
    forall k, n :: (k, n) in s.copies ==> k in s.rows && s.rows[k].status != Suppressed
  }

  /** The attempts after which a delivery was rescheduled. */
  ghost function Rescheduled(s: State, k: Key): set<nat> {
    set a | a in s.audits && a.key == k && a.act == IsRescheduled :: a.attempt
  }

  function Size(ns: set<nat>): nat {
    |ns|
  }

  /** Each further attempt was either scheduled or the claim of an expired lease. */
  ghost predicate Accounted(s: State, k: Key) {
    k in s.rows ==>
      s.rows[k].attempts + (if s.rows[k].status == RetryScheduled then 1 else 0) ==
      1 + Size(Rescheduled(s, k)) + ExpiriesOf(s, k)
  }

  ghost predicate AccountInv(s: State) {
    && (forall k :: Accounted(s, k))
    && (forall k :: k in s.expiries ==> k in s.rows)
  }

  ghost predicate Inv(s: State) {
    CopyInv(s) && CallInv(s) && AuditInv(s) && SuppressInv(s) && AccountInv(s)
  }

  // ---- Work on a copy keeps the invariant ----------------------------------------------------

  /** The steps a copy can take. */
  predicate Forward(from: Phase, to: Phase) {
    !from.Finished? && (to.Finished? || (from.Claimed? && to.Ready?))
  }

  /** What such a step may write. */
  ghost predicate Writes(s: State, key: Key, n: nat, to: Phase, write: Option<(Row, Act)>) {
    write.Some? ==>
      && key in s.rows && s.rows[key].status == Attempting
      && write.value.0.attempts == s.rows[key].attempts && write.value.0.status != Suppressed
      && write.value.1 != IsSuppressed
      && (write.value.1 == IsRetrying <==> !to.Finished?)
      && (write.value.1 == IsRescheduled <==> write.value.0.status == RetryScheduled)
      && (write.value.1 == IsRescheduled ==> n <= 3)
  }

  lemma NoRepeatsGrow<T>(list: seq<T>, x: T)
    requires NoRepeats(list) && x !in list
    ensures NoRepeats(list + [x])
  {
  }

  lemma WorkKeepsCopies(s: State, key: Key, n: nat, to: Phase, write: Option<(Row, Act)>)
    requires CopyInv(s) && SuppressInv(s) && (key, n) in s.copies && Writes(s, key, n, to, write)
    ensures CopyInv(Work(s, key, n, to, write)) && SuppressInv(Work(s, key, n, to, write))
  {
  }

  lemma WorkKeepsCalls(s: State, key: Key, n: nat, to: Phase, write: Option<(Row, Act)>)
    requires CallInv(s) && (key, n) in s.copies && Forward(s.copies[(key, n)].phase, to)
    ensures CallInv(Work(s, key, n, to, write))
  {
    hide NoRepeats;
  }

  lemma WorkKeepsAudits(s: State, key: Key, n: nat, to: Phase, write: Option<(Row, Act)>)
    requires AuditInv(s) && SuppressInv(s) && (key, n) in s.copies && Forward(s.copies[(key, n)].phase, to)
             && Writes(s, key, n, to, write)
    requires s.copies[(key, n)].phase.Misconfigured? ==> to.Finished?
    requires write.Some? && write.value.1 == IsRetrying ==> s.copies[(key, n)].phase.Claimed?
    ensures AuditInv(Work(s, key, n, to, write))
    ensures write.Some? ==> Audit(key, write.value.1, n) !in s.audits
  {
    hide NoRepeats;
    var s' := Work(s, key, n, to, write);
    forall a | a in s.audits ensures Told(s', a) {
      assert Told(s, a);
    }
    if write.Some? {
      assert !Told(s, Audit(key, write.value.1, n));
      NoRepeatsGrow(s.audits, Audit(key, write.value.1, n));
    }
  }

  lemma RescheduledGrows(s: State, s': State, k: Key, a: Audit)
    requires s'.audits == s.audits + [a] && a !in s.audits
    ensures Size(Rescheduled(s', k)) == Size(Rescheduled(s, k)) + if a.key == k && a.act == IsRescheduled then 1 else 0
  {
    if a.key == k && a.act == IsRescheduled {
      assert Rescheduled(s', k) == Rescheduled(s, k) + {a.attempt};
      assert a.attempt !in Rescheduled(s, k);
    } else {
      assert Rescheduled(s', k) == Rescheduled(s, k);
    }
  }

  lemma WorkKeepsAccounts(s: State, key: Key, n: nat, to: Phase, write: Option<(Row, Act)>)
    requires AccountInv(s) && Writes(s, key, n, to, write)
    requires write.Some? ==> Audit(key, write.value.1, n) !in s.audits
    ensures AccountInv(Work(s, key, n, to, write))
  {
    hide Size;
    var s' := Work(s, key, n, to, write);
    forall k ensures Accounted(s', k) {
      assert Accounted(s, k);
      if write.Some? { RescheduledGrows(s, s', k, Audit(key, write.value.1, n)); }
      else { assert Rescheduled(s', k) == Rescheduled(s, k); }
    }
  }

  lemma WorkKeeps(s: State, key: Key, n: nat, to: Phase, write: Option<(Row, Act)>)
    requires Inv(s) && (key, n) in s.copies && Forward(s.copies[(key, n)].phase, to) && Writes(s, key, n, to, write)
    requires s.copies[(key, n)].phase.Misconfigured? ==> to.Finished?
    requires write.Some? && write.value.1 == IsRetrying ==> s.copies[(key, n)].phase.Claimed?
    ensures Inv(Work(s, key, n, to, write))
  {
    hide CopyInv, CallInv, AuditInv, AccountInv, SuppressInv, Writes, Work;
    WorkKeepsCopies(s, key, n, to, write);
    WorkKeepsCalls(s, key, n, to, write);
    WorkKeepsAudits(s, key, n, to, write);
    WorkKeepsAccounts(s, key, n, to, write);
  }

  lemma SendKeeps(s: State, key: Key, n: nat, outcome: Outcome)
    requires Inv(s) && At(s, key, n, Ready)
    ensures Inv(SendStep(s, key, n, outcome))
  {
    hide NoRepeats, Size;
    var s' := SendStep(s, key, n, outcome);
    assert (key, n) !in s.calls;
    NoRepeatsGrow(s.calls, (key, n));
    forall a | a in s'.audits ensures Told(s', a) { assert Told(s, a); }
    forall k ensures Accounted(s', k) {
      assert Accounted(s, k);
      assert Rescheduled(s', k) == Rescheduled(s, k);
    }
  }

  // ---- New rows and claims -------------------------------------------------------------------

  /** Nothing is recorded of a delivery that has no row. */
  lemma UnknownKey(s: State, key: Key)
    requires Inv(s) && key !in s.rows
    ensures forall n :: (key, n) !in s.copies && (key, n) !in s.calls
    ensures forall a :: a in s.audits ==> a.key != key
    ensures Rescheduled(s, key) == {} && ExpiriesOf(s, key) == 0
  {
    hide NoRepeats, AccountInv;
    assert forall a :: a in s.audits ==> Told(s, a) && a.key != key;
    assert AccountInv(s);
    ExpiryIsOfRow(s, key);
  }

  lemma ExpiryIsOfRow(s: State, key: Key)
    requires AccountInv(s) && key !in s.rows
    ensures ExpiriesOf(s, key) == 0
  {
  }

  lemma SuppressKeeps(s: State, key: Key)
    requires Inv(s)
    ensures Inv(SuppressStep(s, key))
  {
    hide NoRepeats, Size;
    if key !in s.rows {
      var s' := SuppressStep(s, key);
      UnknownKey(s, key);
      var a := Audit(key, IsSuppressed, 1);
      NoRepeatsGrow(s.audits, a);
      forall b | b in s.audits ensures Told(s', b) { assert Told(s, b); }
      forall k ensures Accounted(s', k) {
        assert Accounted(s, k);
        RescheduledGrows(s, s', k, a);
        if k == key { EmptySize(); }
      }
    }
  }

  lemma EmptySize()
    ensures Size({}) == 0
  {
  }

  lemma ReserveKeeps(s: State, key: Key, worker: Worker, now: Time, configured: bool)
    requires Inv(s)
    ensures Inv(ReserveStep(s, key, worker, now, configured))
  {
    hide NoRepeats, Size;
    if key !in s.rows {
      var s' := ReserveStep(s, key, worker, now, configured);
      UnknownKey(s, key);
      EmptySize();
      forall b | b in s.audits ensures Told(s', b) { assert Told(s, b); }
      forall k ensures Accounted(s', k) {
        assert Accounted(s, k);
        assert Rescheduled(s', k) == Rescheduled(s, k);
      }
    }
  }

  lemma ClaimKeeps(s: State, key: Key, worker: Worker, now: Time)
    requires Inv(s)
    ensures Inv(ClaimStep(s, key, worker, now))
  {
    hide NoRepeats, Size;
    if key in s.rows && Due(s.rows[key], now) {
      var s' := ClaimStep(s, key, worker, now);
      assert (key, s.rows[key].attempts + 1) !in s.copies;
      forall b | b in s.audits ensures Told(s', b) { assert Told(s, b); }
      forall k ensures Accounted(s', k) {
        assert Accounted(s, k);
        assert Rescheduled(s', k) == Rescheduled(s, k);
      }
    }
  }

  lemma StepKeepsInv(s: State, a: Action)
    requires Inv(s)
    ensures Inv(Step(s, a))
  {
    hide Inv, Work, SuppressStep, ReserveStep, ClaimStep, SendStep;
    match a
    case Suppress(key) => SuppressKeeps(s, key);
    case Reserve(key, worker, now, configured) => ReserveKeeps(s, key, worker, now, configured);
    case Claim(key, worker, now) => ClaimKeeps(s, key, worker, now);
    case Send(key, n, outcome) => if At(s, key, n, Ready) { SendKeeps(s, key, n, outcome); }
    case DropChannel(key, n) => if At(s, key, n, Claimed) { AbandonKeeps(s, key, n); }
    case AbandonMisconfigured(key, n) => if At(s, key, n, Misconfigured) { AbandonKeeps(s, key, n); }
    case MarkRetrying(key, n) => if At(s, key, n, Claimed) { MarkKeeps(s, key, n); }
    case Finish(key, n, at) =>
      if (key, n) in s.copies && s.copies[(key, n)].phase.Sent? {
        FinishKeeps(s, key, n, s.copies[(key, n)].phase.outcome, at);
      }
    case Lose(key, n) => if (key, n) in s.copies { LoseKeeps(s, key, n); }
  }

  lemma AbandonKeeps(s: State, key: Key, n: nat)
    requires Inv(s) && (key, n) in s.copies && !s.copies[(key, n)].phase.Finished?
    ensures Inv(AbandonStep(s, key, n))
  {
    hide Inv, Work;
    WorkKeeps(s, key, n, Finished, Update(s, key, n, AbandonedRow(s, key, n), IsAbandoned));
  }

  lemma MarkKeeps(s: State, key: Key, n: nat)
    requires Inv(s) && At(s, key, n, Claimed)
    ensures Inv(MarkStep(s, key, n))
  {
    hide Inv, Work;
    var write := Update(s, key, n, RowOf(s, key).(expires := CopyOf(s, key, n).expires, nextAttempt := 0), IsRetrying);
    WorkKeeps(s, key, n, if write.Some? then Ready else Finished, write);
  }

  lemma FinishKeeps(s: State, key: Key, n: nat, outcome: Outcome, at: Time)
    requires Inv(s) && (key, n) in s.copies && s.copies[(key, n)].phase.Sent?
    ensures Inv(FinishStep(s, key, n, outcome, at))
  {
    hide Inv, Work;
    var result := Outcomes(RowOf(s, key), n, outcome, at);
    WorkKeeps(s, key, n, Finished, Update(s, key, n, result.0, result.1));
  }

  lemma LoseKeeps(s: State, key: Key, n: nat)
    requires Inv(s) && (key, n) in s.copies
    ensures Inv(Work(s, key, n, Finished, None))
  {
    hide Inv;
    if s.copies[(key, n)].phase.Finished? {
      assert s.copies[(key, n) := s.copies[(key, n)].(phase := Finished)] == s.copies;
    } else {
      WorkKeeps(s, key, n, Finished, None);
    }
  }

  lemma {:induction false} RunsKeepInv(s: State, actions: seq<Action>)
    requires Inv(s)
    ensures Inv(Run(s, actions))
  {
    hide Inv, Step;
    if actions != [] {
      RunsKeepInv(s, actions[..|actions| - 1]);
      StepKeepsInv(Run(s, actions[..|actions| - 1]), actions[|actions| - 1]);
    }
  }

  lemma EmptyInv()
    ensures Inv(Empty())
  {
  }

  // ---- What holds in every run ---------------------------------------------------------------

  /** The channel calls made for one delivery. */
  function CallsOf(calls: seq<(Key, nat)>, k: Key): nat {
    if calls == [] then 0
    else CallsOf(calls[..|calls| - 1], k) + if calls[|calls| - 1].0 == k then 1 else 0
  }

  ghost function Attempted(calls: seq<(Key, nat)>, k: Key): set<nat> {
    set c | c in calls && c.0 == k :: c.1
  }

  lemma {:induction false} CallsAreAttempts(calls: seq<(Key, nat)>, k: Key)
    requires NoRepeats(calls)
    ensures CallsOf(calls, k) == Size(Attempted(calls, k))
  {
    if calls != [] {
      var front, c := calls[..|calls| - 1], calls[|calls| - 1];
      CallsAreAttempts(front, k);
      assert calls == front + [c];
      if c.0 == k {
        assert Attempted(calls, k) == Attempted(front, k) + {c.1};
        assert c !in front;
        assert c.1 !in Attempted(front, k);
      } else {
        assert Attempted(calls, k) == Attempted(front, k);
      }
    }
  }

  lemma {:induction false} SizeUpTo(ns: set<nat>, a: nat)
    requires forall n :: n in ns ==> 1 <= n <= a
    ensures Size(ns) <= a
  {
    if a == 0 {
      assert ns == {};
    } else {
      SizeUpTo(ns - {a}, a - 1);
      assert ns <= (ns - {a}) + {a};
    }
  }

  /** In every run: a delivery has at most four attempts and one more for each lease that ran out, at most one channel
      call for each attempt, and no audit record twice. */
  lemma AttemptsAreBounded(actions: seq<Action>, k: Key)
    ensures var s := Run(Empty(), actions);
            && (k in s.rows ==> s.rows[k].attempts <= 4 + ExpiriesOf(s, k))
            && CallsOf(s.calls, k) <= (if k in s.rows then s.rows[k].attempts else 0)
            && NoRepeats(s.calls) && NoRepeats(s.audits)
  {
    hide Run, Size, NoRepeats, SuppressInv;
    EmptyInv();
    RunsKeepInv(Empty(), actions);
    var s := Run(Empty(), actions);
    assert Accounted(s, k);
    forall n | n in Rescheduled(s, k) ensures 1 <= n <= 3 {
      var a :| a in s.audits && a.key == k && a.act == IsRescheduled && a.attempt == n;
      assert Told(s, a);
    }
    SizeUpTo(Rescheduled(s, k), 3);
    CallsAreAttempts(s.calls, k);
    SizeUpTo(Attempted(s.calls, k), if k in s.rows then s.rows[k].attempts else 0);
  }

  function ActionName(act: Act): string {
    match act
    case IsSuppressed => "delivery.suppressed"
    case IsDelivered => "delivery.delivered"
    case IsRetrying => "delivery.retrying"
    case IsRescheduled => "delivery.retry_scheduled"
    case IsAbandoned => "delivery.abandoned"
  }

  lemma ActionNamesDiffer(a: Act, b: Act)
    ensures Canonical.EndsPlain(ActionName(a))
    ensures ActionName(a) == ActionName(b) ==> a == b
  {
    assert |ActionName(a)| == |ActionName(b)| ==> a == b || ActionName(a)[9] != ActionName(b)[9];
  }

  function AuditText(a: Audit): string {
    Canonical.AuditIdText(a.key, ActionName(a.act), a.attempt)
  }

  /** In every run the texts from which audit identifiers are derived never repeat, delivery keys being of one
      length. */
  lemma AuditIdsNeverRepeat(actions: seq<Action>, i: nat, j: nat)
    requires i < j < |Run(Empty(), actions).audits|
    requires |Run(Empty(), actions).audits[i].key| == |Run(Empty(), actions).audits[j].key|
    ensures AuditText(Run(Empty(), actions).audits[i]) != AuditText(Run(Empty(), actions).audits[j])
  {
    hide Run, ActionName;
    AttemptsAreBounded(actions, "");
    var a, b := Run(Empty(), actions).audits[i], Run(Empty(), actions).audits[j];
    assert a != b;
    ActionNamesDiffer(a.act, b.act);
    ActionNamesDiffer(b.act, a.act);
    if AuditText(a) == AuditText(b) {
      Canonical.AuditIdIdentifies(a.key, ActionName(a.act), a.attempt, b.key, ActionName(b.act), b.attempt);
    }
  }

  predicate Absorbing(status: Status) {
    status == Delivered || status == Suppressed || status == Abandoned
  }

  /** A delivered, suppressed or abandoned delivery never changes again. */
  lemma {:induction false} AbsorbingStays(s: State, actions: seq<Action>, k: Key)
    requires k in s.rows && Absorbing(s.rows[k].status)
    ensures k in Run(s, actions).rows && Run(s, actions).rows[k] == s.rows[k]
  {
    hide Step;
    if actions != [] {
      AbsorbingStays(s, actions[..|actions| - 1], k);
      AbsorbingStep(Run(s, actions[..|actions| - 1]), actions[|actions| - 1], k);
    }
  }

  lemma AbsorbingStep(s: State, a: Action, k: Key)
    requires k in s.rows && Absorbing(s.rows[k].status)
    ensures k in Step(s, a).rows && Step(s, a).rows[k] == s.rows[k]
  {
  }

  /** A new attempt is only ever counted by a claim, of a row whose retry is due or whose lease has run out; nothing
      else hands out a copy of an existing row. */
  lemma OnlyDueRowsAreClaimed(s: State, a: Action, k: Key, n: nat)
    requires Inv(s) && k in s.rows
    ensures (k, n) in Step(s, a).copies && (k, n) !in s.copies <==>
              a.Claim? && a.key == k && n == s.rows[k].attempts + 1 && Due(s.rows[k], a.now)
    ensures k in Step(s, a).rows && Step(s, a).rows[k].attempts ==
              s.rows[k].attempts + if a.Claim? && a.key == k && Due(s.rows[k], a.now) then 1 else 0
  {
    hide CallInv, AuditInv, AccountInv, SuppressInv;
  }

  /** A new delivery is handed out exactly by its reservation, for a call where it is configured and to be given up
      where it is not; and a channel is called exactly for a copy that is ready for it. */
  lemma FirstCopyIsReserved(s: State, a: Action, k: Key, n: nat)
    requires Inv(s) && k !in s.rows
    ensures (k, n) in Step(s, a).copies <==> a.Reserve? && a.key == k && n == 1
    ensures a.Reserve? && a.key == k ==>
              && Step(s, a).copies[(k, 1)] == Copy(a.worker, a.now + 30, if a.configured then Ready else Misconfigured)
              && Step(s, a).rows[k] == Row(Attempting, 1, Some(a.worker), a.now + 30, 0)
    ensures (k, n) !in Step(s, a).calls
  {
    hide CallInv, AuditInv, AccountInv, SuppressInv;
    UnknownKey(s, k);
    assert (k, n) !in s.calls;
  }

  /** A rescheduled delivery is due again after one, five and thirty minutes, counted from its failure. */
  lemma RetriesWaitTheirTurn(s: State, k: Key, n: nat, at: Time, now: Time)
    requires At(s, k, n, Sent(Retryable)) && 1 <= n <= 3 && Updatable(s, k, CopyOf(s, k, n).owner)
    ensures var row := RowOf(Step(s, Finish(k, n, at)), k);
            row.status == RetryScheduled
              && (Due(row, now) <==> now >= at + (if n == 1 then 60 else if n == 2 then 300 else 1800))
  {
  }

  // ---- Which result leads to which end -------------------------------------------------------

  /** The row comes to have this status in this step. */
  predicate Becomes(s: State, a: Action, k: Key, status: Status) {
    var s' := Step(s, a);
    k in s'.rows && s'.rows[k].status == status && (k in s.rows ==> s.rows[k].status != status)
  }

  /** The step adds this one audit record. */
  predicate Records(s: State, a: Action, audit: Audit) {
    Step(s, a).audits == s.audits + [audit]
  }

  /** The copy has this result and its row is still there for it. */
  predicate Reports(s: State, k: Key, n: nat, outcome: Outcome) {
    At(s, k, n, Sent(outcome)) && Updatable(s, k, s.copies[(k, n)].owner)
  }

  /** The step gives a delivery up: a fatal result, a retryable one after the third attempt, no channel, or a
      configuration failure, and the row is still there for it. */
  predicate GivesUp(s: State, a: Action, k: Key, n: nat) {
    || (a.Finish? && (a.key, a.attempt) == (k, n)
        && (Reports(s, k, n, Fatal) || (Reports(s, k, n, Retryable) && n > 3)))
    || (&& (a == DropChannel(k, n) || a == AbandonMisconfigured(k, n))
        && At(s, k, n, if a.DropChannel? then Claimed else Misconfigured) && Updatable(s, k, s.copies[(k, n)].owner))
  }

  /** The status an audited act leaves behind; a mark leaves the row as it was. */
  function StatusAfter(act: Act): Status {
    match act
    case IsSuppressed => Suppressed
    case IsDelivered => Delivered
    case IsRetrying => Attempting
    case IsRescheduled => RetryScheduled
    case IsAbandoned => Abandoned
  }

  /** What a step records: the attempt and the act, if it records anything. */
  function Recorded(s: State, a: Action): Option<(nat, Act)> {
    match a
    case Suppress(key) => if key in s.rows then None else Some((1, IsSuppressed))
    case DropChannel(key, n) =>
      if At(s, key, n, Claimed) && Updatable(s, key, s.copies[(key, n)].owner) then Some((n, IsAbandoned)) else None
    case AbandonMisconfigured(key, n) =>
      if At(s, key, n, Misconfigured) && Updatable(s, key, s.copies[(key, n)].owner) then Some((n, IsAbandoned))
      else None
    case MarkRetrying(key, n) =>
      if At(s, key, n, Claimed) && Updatable(s, key, s.copies[(key, n)].owner) then Some((n, IsRetrying)) else None
    case Finish(key, n, _) =>
      if Reports(s, key, n, Good) then Some((n, IsDelivered))
      else if Reports(s, key, n, Retryable) && 1 <= n <= 3 then Some((n, IsRescheduled))
      else if Reports(s, key, n, Retryable) || Reports(s, key, n, Fatal) then Some((n, IsAbandoned))
      else None
    case _ => None
  }

  /** A step adds what it records to the audit table, with the row's new status, and otherwise only a reservation or a
      claim changes a status, to attempting. */
  lemma StepRecords(s: State, a: Action)
    ensures var r, s' := Recorded(s, a), Step(s, a);
            if r.Some? then
              && s'.audits == s.audits + [Audit(a.key, r.value.1, r.value.0)]
              && a.key in s'.rows && s'.rows == s.rows[a.key := s'.rows[a.key]]
              && s'.rows[a.key].status == StatusAfter(r.value.1)
              && (a.key in s.rows ==> s.rows[a.key].status == Attempting)
            else
              && s'.audits == s.audits
              && forall k :: k in s'.rows ==>
                 s'.rows[k].status == Attempting || (k in s.rows && s'.rows[k] == s.rows[k])
  {
    if a.Finish? { FinishRecords(s, a.key, a.attempt, a.at); }
  }

  lemma FinishRecords(s: State, key: Key, n: nat, at: Time)
    ensures var r, s' := Recorded(s, Finish(key, n, at)), Step(s, Finish(key, n, at));
            if r.Some? then
              && s'.audits == s.audits + [Audit(key, r.value.1, n)] && r.value.0 == n
              && key in s.rows && key in s'.rows && s'.rows == s.rows[key := s'.rows[key]]
              && s'.rows[key].status == StatusAfter(r.value.1) && s.rows[key].status == Attempting
            else s'.audits == s.audits && s'.rows == s.rows
  {
    hide RetryDelay;
  }

  /** A delivery becomes delivered, and is recorded as delivered, exactly by the good result of a copy whose row is
      still there for it. */
  lemma DeliveredExactlyWhen(s: State, a: Action, k: Key, n: nat)
    ensures Records(s, a, Audit(k, IsDelivered, n)) <==>
              a.Finish? && (a.key, a.attempt) == (k, n) && Reports(s, k, n, Good)
    ensures Becomes(s, a, k, Delivered) <==> a.Finish? && a.key == k && Reports(s, k, a.attempt, Good)
  {
    hide Step, Updatable;
    StepRecords(s, a);
    OneRecord(s.audits);
  }

  /** It is scheduled again exactly by a retryable result of one of the first three attempts. */
  lemma RescheduledExactlyWhen(s: State, a: Action, k: Key, n: nat)
    requires CopyInv(s)
    ensures Records(s, a, Audit(k, IsRescheduled, n)) <==>
              a.Finish? && (a.key, a.attempt) == (k, n) && Reports(s, k, n, Retryable) && n <= 3
    ensures Becomes(s, a, k, RetryScheduled) <==>
              a.Finish? && a.key == k && Reports(s, k, a.attempt, Retryable) && a.attempt <= 3
  {
    hide Step, Updatable;
    StepRecords(s, a);
    OneRecord(s.audits);
  }

  /** It is given up, and recorded as abandoned, exactly in the four cases. */
  lemma AbandonedExactlyWhen(s: State, a: Action, k: Key, n: nat)
    requires CopyInv(s)
    ensures Records(s, a, Audit(k, IsAbandoned, n)) <==> GivesUp(s, a, k, n)
    ensures Becomes(s, a, k, Abandoned) <==>
              (a.Finish? || a.DropChannel? || a.AbandonMisconfigured?) && GivesUp(s, a, k, a.attempt)
  {
    hide Step, Updatable;
    StepRecords(s, a);
    OneRecord(s.audits);
  }

  lemma OneRecord(audits: seq<Audit>)
    ensures forall b, c :: audits + [b] == audits + [c] ==> b == c
    ensures forall b :: audits + [b] != audits
  {
    forall b, c | audits + [b] == audits + [c] ensures b == c {
      assert (audits + [b])[|audits|] == b;
    }
    forall b ensures audits + [b] != audits {
      assert |audits + [b]| != |audits|;
    }
  }

  /** What the channel answered agrees with the record. */
  predicate Justified(s: State, a: Audit) {
    var c := (a.key, a.attempt);
    match a.act
    case IsDelivered => c in s.replies && s.replies[c] == Good
    case IsRescheduled => c in s.replies && s.replies[c] == Retryable && a.attempt <= 3
    case IsAbandoned => c in s.replies ==> s.replies[c] == Fatal || (s.replies[c] == Retryable && a.attempt > 3)
    case _ => true
  }

  /** Every call has its answer, every record and every row that is not being attempted agrees with an answer. */
  ghost predicate ReplyInv(s: State) {
    && (forall c :: c in s.replies <==> c in s.calls)
    && (forall c :: c in s.copies && s.copies[c].phase.Sent? ==>
          c in s.replies && s.replies[c] == s.copies[c].phase.outcome)
    && (forall a :: a in s.audits ==> Justified(s, a))
    && (forall k :: k in s.rows && s.rows[k].status != Attempting ==>
          exists a :: a in s.audits && a.key == k && StatusAfter(a.act) == s.rows[k].status)
  }

  /** No call was added, and only this copy may have come to have an answer. */
  ghost predicate SentAsBefore(s: State, s': State, key: Key, n: nat, phase: Phase) {
    && s'.calls == s.calls && s'.replies == s.replies
    && forall c :: c in s'.copies && s'.copies[c].phase.Sent? ==>
         (c in s.copies && s.copies[c].phase == s'.copies[c].phase) || (c == (key, n) && s'.copies[c].phase == phase)
  }

  lemma WorkSends(s: State, key: Key, n: nat, phase: Phase, write: Option<(Row, Act)>)
    ensures var s' := Work(s, key, n, phase, write);
            SentAsBefore(s, s', key, n, phase)
  {
  }

  /** Only a channel call adds an answer. */
  lemma StepReplies(s: State, a: Action)
    ensures var s', called := Step(s, a), a.Send? && At(s, a.key, a.attempt, Ready);
            && s'.calls == (if called then s.calls + [(a.key, a.attempt)] else s.calls)
            && s'.replies == (if called then s.replies[(a.key, a.attempt) := a.outcome] else s.replies)
            && forall c :: c in s'.copies && s'.copies[c].phase.Sent? ==>
                 || (c in s.copies && s.copies[c].phase == s'.copies[c].phase)
                 || (called && c == (a.key, a.attempt) && s'.copies[c].phase == Sent(a.outcome))
  {
    hide Outcomes, Updatable, Update, AbandonedRow, Work;
    forall n, phase, write ensures SentAsBefore(s, Work(s, a.key, n, phase, write), a.key, n, phase) {
      WorkSends(s, a.key, n, phase, write);
    }
  }

  lemma NewRecordJustified(s: State, a: Action)
    requires CallInv(s) && CopyInv(s) && ReplyInv(s) && Recorded(s, a).Some?
    ensures Justified(s, Audit(a.key, Recorded(s, a).value.1, Recorded(s, a).value.0))
  {
    hide NoRepeats, Updatable;
  }

  lemma JustifiedIgnoresRows(s: State, s': State, b: Audit)
    requires s'.replies == s.replies && Justified(s, b)
    ensures Justified(s', b)
  {
  }

  lemma JustifiedStays(s: State, a: Action, b: Audit)
    requires CallInv(s) && AuditInv(s) && ReplyInv(s) && b in s.audits
    ensures Justified(Step(s, a), b)
  {
    hide NoRepeats, Step;
    StepReplies(s, a);
    assert Told(s, b) && Justified(s, b);
  }

  lemma StepKeepsReplies(s: State, a: Action)
    requires Inv(s) && ReplyInv(s)
    ensures ReplyInv(Step(s, a))
  {
    hide CopyInv, AccountInv, SuppressInv, NoRepeats, Justified, Step;
    StepRecords(s, a);
    StepReplies(s, a);
    var s', r := Step(s, a), Recorded(s, a);
    if r.Some? {
      NewRecordJustified(s, a);
      JustifiedIgnoresRows(s, s', Audit(a.key, r.value.1, r.value.0));
    }
    forall b | b in s.audits ensures Justified(s', b) {
      JustifiedStays(s, a, b);
    }
    forall k | k in s'.rows && s'.rows[k].status != Attempting
      ensures exists b :: b in s'.audits && b.key == k && StatusAfter(b.act) == s'.rows[k].status
    {
      if r.Some? && k == a.key {
        assert Audit(k, r.value.1, r.value.0) in s'.audits;
      } else {
        var b :| b in s.audits && b.key == k && StatusAfter(b.act) == s.rows[k].status;
        assert b in s'.audits;
      }
    }
  }

  lemma {:induction false} RunsKeepReplies(actions: seq<Action>)
    ensures ReplyInv(Run(Empty(), actions)) && Inv(Run(Empty(), actions))
  {
    hide Inv, ReplyInv, Step;
    EmptyInv();
    if actions == [] {
      EmptyReplies();
    } else {
      RunsKeepReplies(actions[..|actions| - 1]);
      StepKeepsReplies(Run(Empty(), actions[..|actions| - 1]), actions[|actions| - 1]);
      StepKeepsInv(Run(Empty(), actions[..|actions| - 1]), actions[|actions| - 1]);
    }
  }

  lemma EmptyReplies()
    ensures ReplyInv(Empty())
  {
  }

  /** In every run: a delivered row has a channel call that ended well, one that waits for a retry has a call among the
      first three that failed for the time being, and for an abandoned one there is an attempt without a call, with a
      fatal answer, or after the third. */
  lemma EveryEndIsEarned(actions: seq<Action>, k: Key)
    requires k in Run(Empty(), actions).rows
    ensures var s := Run(Empty(), actions);
            match s.rows[k].status
            case Delivered => exists n :: (k, n) in s.calls && (k, n) in s.replies && s.replies[(k, n)] == Good
            case RetryScheduled =>
              exists n :: n <= 3 && (k, n) in s.calls && (k, n) in s.replies && s.replies[(k, n)] == Retryable
            case Abandoned =>
              exists n: nat :: Audit(k, IsAbandoned, n) in s.audits
                && ((k, n) !in s.calls || ((k, n) in s.replies && (s.replies[(k, n)] == Fatal || n > 3)))
            case _ => true
  {
    hide Run, Inv;
    RunsKeepReplies(actions);
    var s := Run(Empty(), actions);
    if s.rows[k].status != Attempting {
      var a :| a in s.audits && a.key == k && StatusAfter(a.act) == s.rows[k].status;
      assert Justified(s, a);
      assert a == Audit(k, a.act, a.attempt);
    }
  }

  /** A claim is safe from other claims for the length of its lease, also after it was marked. */
  lemma LeasesLast(s: State, k: Key, worker: Worker, at: Time, now: Time)
    requires Inv(s) && k in s.rows && Due(s.rows[k], at)
    ensures var n := s.rows[k].attempts + 1;
            var claimed := Step(s, Claim(k, worker, at));
            && (Due(RowOf(claimed, k), now) <==> now >= at + 30)
            && (Due(RowOf(Step(claimed, MarkRetrying(k, n)), k), now) <==> now >= at + 30)
  {
    hide Inv;
  }

  // ---- Copies that came too late -------------------------------------------------------------

  /** The worker claims a delivery only when it holds no unfinished copy of it. */
  ghost predicate Careful(s: State, a: Action) {
    a.Claim? ==> forall n :: Live(s, a.key, n) ==> CopyOf(s, a.key, n).owner != a.worker
  }

  /** Only the copy of the last attempt can still update its row. */
  ghost predicate CurrentInv(s: State) {
    forall k, n :: Live(s, k, n) && Updatable(s, k, CopyOf(s, k, n).owner) ==> n == s.rows[k].attempts
  }

  /** A scheduled retry comes after one of the first three attempts. */
  ghost predicate RetryInv(s: State) {
    forall k :: k in s.rows && s.rows[k].status == RetryScheduled ==> 1 <= s.rows[k].attempts <= 3
  }

  lemma CarefulStepKeeps(s: State, a: Action)
    requires Inv(s) && CurrentInv(s) && RetryInv(s) && Careful(s, a)
    ensures CurrentInv(Step(s, a)) && RetryInv(Step(s, a))
  {
    hide CallInv, AuditInv, AccountInv, SuppressInv;
    if a.Claim? {
      CarefulClaimKeeps(s, a.key, a.worker, a.now);
    } else {
      var s' := Step(s, a);
      forall k, n | Live(s', k, n) && Updatable(s', k, CopyOf(s', k, n).owner) ensures n == s'.rows[k].attempts {
        OtherStepsKeepCurrent(s, a, k, n);
      }
      OtherStepsKeepRetries(s, a);
    }
  }

  lemma OtherStepsKeepCurrent(s: State, a: Action, k: Key, n: nat)
    requires CopyInv(s) && CurrentInv(s) && !a.Claim?
    requires Live(Step(s, a), k, n) && Updatable(Step(s, a), k, CopyOf(Step(s, a), k, n).owner)
    ensures n == Step(s, a).rows[k].attempts
  {
    if !(a.Reserve? && a.key == k && k !in s.rows) {
      assert Live(s, k, n) && CopyOf(s, k, n).owner == CopyOf(Step(s, a), k, n).owner;
    }
  }

  lemma OtherStepsKeepRetries(s: State, a: Action)
    requires CopyInv(s) && CurrentInv(s) && RetryInv(s) && !a.Claim?
    ensures RetryInv(Step(s, a))
  {
    if a.Finish? && (a.key, a.attempt) in s.copies {
      assert Live(s, a.key, a.attempt) || At(s, a.key, a.attempt, Finished);
    }
  }

  lemma CarefulClaimKeeps(s: State, key: Key, worker: Worker, now: Time)
    requires CopyInv(s) && CurrentInv(s) && RetryInv(s)
    requires forall n :: Live(s, key, n) ==> CopyOf(s, key, n).owner != worker
    ensures CurrentInv(ClaimStep(s, key, worker, now)) && RetryInv(ClaimStep(s, key, worker, now))
  {
    var s' := ClaimStep(s, key, worker, now);
    forall k, n | Live(s', k, n) && Updatable(s', k, CopyOf(s', k, n).owner) ensures n == s'.rows[k].attempts {
      if k == key {
        assert s' == s || n == s'.rows[k].attempts || (Live(s, k, n) && CopyOf(s', k, n) == CopyOf(s, k, n));
      } else {
        assert Live(s, k, n) && CopyOf(s', k, n) == CopyOf(s, k, n);
      }
    }
  }

  ghost predicate CarefulRun(s: State, actions: seq<Action>) {
    actions == [] ||
    (CarefulRun(s, actions[..|actions| - 1]) && Careful(Run(s, actions[..|actions| - 1]), actions[|actions| - 1]))
  }

  /** As long as no worker claims a delivery of which it still holds a copy, a scheduled retry comes after one of the
      first three attempts, and only the last copy can write. */
  lemma {:induction false} CarefulRunsKeepRetries(actions: seq<Action>)
    requires CarefulRun(Empty(), actions)
    ensures CurrentInv(Run(Empty(), actions)) && RetryInv(Run(Empty(), actions))
  {
    hide Step, Inv, Careful;
    if actions != [] {
      CarefulRunsKeepRetries(actions[..|actions| - 1]);
      EmptyInv();
      RunsKeepInv(Empty(), actions[..|actions| - 1]);
      CarefulStepKeeps(Run(Empty(), actions[..|actions| - 1]), actions[|actions| - 1]);
    }
  }

  /** A copy of an early attempt that can still schedule a retry although the row has counted more than three. */
  predicate Overtaken(s: State, k: Key, n: nat) {
    && At(s, k, n, Sent(Retryable)) && n <= 3
    && Updatable(s, k, CopyOf(s, k, n).owner) && s.rows[k].attempts > 3
  }

  /** Exactly then can the next step schedule a retry past the third attempt. */
  lemma RetryBoundBreaksExactlyWhen(s: State)
    requires Inv(s) && RetryInv(s)
    ensures (exists a :: !RetryInv(Step(s, a))) <==> exists k, n :: Overtaken(s, k, n)
  {
    hide CallInv, AuditInv, AccountInv, SuppressInv;
    if exists k, n :: Overtaken(s, k, n) {
      var k, n :| Overtaken(s, k, n);
      var s' := Step(s, Finish(k, n, 0));
      assert s'.rows[k].status == RetryScheduled && s'.rows[k].attempts > 3;
      assert !RetryInv(s');
    }
    forall a | !RetryInv(Step(s, a)) ensures exists k, n :: Overtaken(s, k, n) {
      BreakerIsOvertaken(s, a);
    }
  }

  lemma BreakerIsOvertaken(s: State, a: Action)
    requires CopyInv(s) && RetryInv(s) && !RetryInv(Step(s, a))
    ensures a.Finish? && Overtaken(s, a.key, a.attempt)
  {
  }

  /** A first attempt whose channel call outlasts its lease, two retries by the same worker, a fourth attempt by the
      same worker, and then the result of the first. */
  function OvertakenRun(): seq<Action> {
    [Reserve("d", "w", 0, true), Send("d", 1, Retryable),
     Claim("d", "w", 30), MarkRetrying("d", 2), Send("d", 2, Retryable), Finish("d", 2, 30),
     Claim("d", "w", 330), MarkRetrying("d", 3), Send("d", 3, Retryable), Finish("d", 3, 330),
     Claim("d", "w", 2130), Finish("d", 1, 2130)]
  }

  ghost function OvertakenAt(i: nat): State
    requires i <= |OvertakenRun()|
  {
    Run(Empty(), OvertakenRun()[..i])
  }

  lemma OvertakenStep(i: nat)
    requires i < |OvertakenRun()|
    ensures OvertakenAt(i + 1) == Step(OvertakenAt(i), OvertakenRun()[i])
  {
    hide Step, OvertakenRun;
    assert OvertakenRun()[..i + 1][..i] == OvertakenRun()[..i];
  }

  /** The row, and the first copy still waiting for its result. */
  ghost predicate Waiting(s: State, row: Row) {
    && "d" in s.rows && s.rows["d"] == row
    && ("d", 1) in s.copies && s.copies[("d", 1)] == Copy("w", 30, Sent(Retryable))
  }

  /** One retry: claimed, marked, sent, scheduled again. */
  lemma OvertakenSend(i: nat, n: nat, row: Row, at: Time)
    requires (i, n, at) in {(2, 2, 30), (6, 3, 330)} && Waiting(OvertakenAt(i), row) && Due(row, at)
             && row.attempts == n - 1
    ensures Waiting(OvertakenAt(i + 3), Row(Attempting, n, Some("w"), at + LEASE, 0))
    ensures ("d", n) in OvertakenAt(i + 3).copies
            && OvertakenAt(i + 3).copies[("d", n)] == Copy("w", at + LEASE, Sent(Retryable))
  {
    hide OvertakenAt, Run;
    OvertakenStep(i); OvertakenStep(i + 1); OvertakenStep(i + 2);
    var claimed := Row(Attempting, n, Some("w"), at + LEASE, 0);
    assert Waiting(OvertakenAt(i + 1), claimed) && At(OvertakenAt(i + 1), "d", n, Claimed);
    assert OvertakenAt(i + 1).copies[("d", n)] == Copy("w", at + LEASE, Claimed);
    assert Waiting(OvertakenAt(i + 2), claimed) && OvertakenAt(i + 2).copies[("d", n)] == Copy("w", at + LEASE, Ready);
  }

  lemma OvertakenRound(i: nat, n: nat, row: Row, at: Time)
    requires (i, n, at) in {(2, 2, 30), (6, 3, 330)} && Waiting(OvertakenAt(i), row) && Due(row, at)
             && row.attempts == n - 1
    ensures Waiting(OvertakenAt(i + 4), Row(RetryScheduled, n, None, 0, at + RetryDelay(n)))
  {
    hide OvertakenAt, Run;
    OvertakenSend(i, n, row, at);
    OvertakenStep(i + 3);
  }

  /** A scheduled retry after the fourth attempt is possible. */
  lemma RetryAfterFourthAttempt()
    ensures var s := Run(Empty(), OvertakenRun());
            "d" in s.rows && s.rows["d"].status == RetryScheduled && s.rows["d"].attempts == 4
  {
    OvertakenStart();
    OvertakenRound(2, 2, Row(Attempting, 1, Some("w"), 30, 0), 30);
    OvertakenRound(6, 3, Row(RetryScheduled, 2, None, 0, 330), 330);
    OvertakenEnd();
    assert OvertakenRun()[..12] == OvertakenRun();
  }

  lemma OvertakenStart()
    ensures Waiting(OvertakenAt(2), Row(Attempting, 1, Some("w"), 30, 0))
  {
    hide Run;
    OvertakenStep(0); OvertakenStep(1);
    assert OvertakenAt(0) == Empty() by { NoSteps(); }
    assert OvertakenAt(1).copies[("d", 1)] == Copy("w", 30, Ready);
  }

  lemma NoSteps()
    ensures OvertakenRun()[..0] == [] && Run(Empty(), []) == Empty()
  {
  }

  lemma OvertakenEnd()
    requires Waiting(OvertakenAt(10), Row(RetryScheduled, 3, None, 0, 2130))
    ensures OvertakenAt(12).rows.Keys >= {"d"} && OvertakenAt(12).rows["d"] == Row(RetryScheduled, 4, None, 0, 2190)
  {
    hide OvertakenAt, Run;
    OvertakenStep(10); OvertakenStep(11);
    assert Waiting(OvertakenAt(11), Row(Attempting, 4, Some("w"), 2160, 0));
  }

  // ---- The repository and the dispatcher -----------------------------------------------------

  class DeliveryRepository {
    var rows: map<Key, Row>
    var audits: seq<Audit>
    // What is known outside the tables: the copies at work, the channel calls, the leases that ran out.
    ghost var copies: map<(Key, nat), Copy>
    ghost var calls: seq<(Key, nat)>
    ghost var replies: map<(Key, nat), Outcome>
    ghost var expiries: map<Key, nat>

    ghost function View(): State
      reads this
    {
      State(rows, copies, audits, calls, replies, expiries)
    }

    constructor ()
      ensures View() == Empty() && Inv(View())
    {
      rows, audits, copies, calls, replies, expiries := map[], [], map[], [], map[], map[];
      new;
      EmptyInv();
    }

    /** Inserts a row unless the key is known; a suppressed delivery is audited at once. */
    method ReserveDelivery(key: Key, row: Row, ghost a: Action) returns (reserved: bool)
      requires Inv(View())
      requires (a.Suppress? && a.key == key && row == Row(Suppressed, 1, None, 0, 0))
            || (a.Reserve? && a.key == key && row == Row(Attempting, 1, Some(a.worker), a.now + LEASE, 0))
      modifies this
      ensures View() == Step(old(View()), a) && Inv(View()) && reserved == (key !in old(rows))
    {
      hide Inv;
      StepKeepsInv(View(), a);
      reserved := key !in rows;
      if reserved {
        rows := rows[key := row];
        if row.status == Suppressed { audits := audits + [Audit(key, IsSuppressed, 1)]; }
        if a.Reserve? {
          copies := copies[(key, 1) := Copy(a.worker, a.now + LEASE, if a.configured then Ready else Misconfigured)];
        }
      }
    }

    /** Claims one delivery that is due, if there is any. */
    method ClaimDue(worker: Worker, now: Time) returns (claimed: Option<(Key, Row)>)
      requires Inv(View())
      modifies this
      ensures claimed.None? ==> View() == old(View()) && forall k :: k in rows ==> !Due(rows[k], now)
      ensures claimed.Some? ==>
                var k, row := claimed.value.0, claimed.value.1;
                && k in old(rows) && Due(old(rows)[k], now)
                   && row == Row(Attempting, old(rows)[k].attempts + 1, Some(worker), now + LEASE, 0)
                && View() == Step(old(View()), Claim(k, worker, now)) && Inv(View())
                && (k, row.attempts) in View().copies
                   && View().copies[(k, row.attempts)] == Copy(worker, now + LEASE, Claimed)
    {
      hide Inv;
      if exists k :: k in rows && Due(rows[k], now) {
        var k :| k in rows && Due(rows[k], now);
        StepKeepsInv(View(), Claim(k, worker, now));
        ghost var was := rows[k];
        var row := Row(Attempting, rows[k].attempts + 1, Some(worker), now + LEASE, 0);
        expiries := if was.status == Attempting then expiries[k := ExpiriesOf(View(), k) + 1] else expiries;
        copies := copies[(k, row.attempts) := Copy(worker, now + LEASE, Claimed)];
        rows := rows[k := row];
        return Some((k, row));
      }
      claimed := None;
    }

    /** The conditional update with its audit record; false when no row was there to update.  The number of attempts is
        not among the columns it writes. */
    method UpdateDelivery(key: Key, worker: Worker, delivery: Row, audit: Audit) returns (updated: bool)
      modifies this`rows, this`audits
      ensures updated == old(Updatable(View(), key, worker))
      ensures rows == if updated then old(rows)[key := delivery.(attempts := old(rows)[key].attempts)] else old(rows)
      ensures audits == if updated then old(audits) + [audit] else old(audits)
    {
      updated := key in rows && rows[key].status == Attempting && rows[key].owner == Some(worker);
      if updated {
        rows := rows[key := delivery.(attempts := rows[key].attempts)];
        audits := audits + [audit];
      }
    }
  }

  /** Calls the channel and writes the result back. */
  method FinishAttempt(repository: DeliveryRepository, key: Key, worker: Worker, delivery: Row, outcome: Outcome,
                       at: Time)
    requires Inv(repository.View()) && At(repository.View(), key, delivery.attempts, Ready)
    requires CopyOf(repository.View(), key, delivery.attempts).owner == worker
    modifies repository
    ensures repository.View() ==
            Step(Step(old(repository.View()), Send(key, delivery.attempts, outcome)),
                 Finish(key, delivery.attempts, at))
    ensures Inv(repository.View())
  {
    hide Inv;
    ghost var s, n := repository.View(), delivery.attempts;
    StepKeepsInv(s, Send(key, n, outcome));
    StepKeepsInv(Step(s, Send(key, n, outcome)), Finish(key, n, at));
    repository.calls, repository.replies := repository.calls + [(key, n)], repository.replies[(key, n) := outcome];
    var result := Outcomes(delivery, delivery.attempts, outcome, at);
    var updated := repository.UpdateDelivery(key, worker, result.0, Audit(key, result.1, delivery.attempts));
    repository.copies := repository.copies[(key, n) := repository.copies[(key, n)].(phase := Finished)];
    FinishedTwice(s, key, n, outcome);
  }

  lemma FinishedTwice(s: State, key: Key, n: nat, outcome: Outcome)
    requires (key, n) in s.copies
    ensures s.copies[(key, n) := s.copies[(key, n)].(phase := Sent(outcome))][
              (key, n) := s.copies[(key, n)].(phase := Finished)]
         == s.copies[(key, n) := s.copies[(key, n)].(phase := Finished)]
  {
  }

  /** What is done with a claimed delivery: without a channel it is given up; otherwise it is marked and, if its row is
      still there for it, sent and finished. */
  function Attempt(key: Key, n: nat, available: bool, there: bool, outcome: Outcome, now: Time): seq<Action> {
    if !available then [DropChannel(key, n)]
    else [MarkRetrying(key, n)] + if there then [Send(key, n, outcome), Finish(key, n, now)] else []
  }

  method RetryOne(repository: DeliveryRepository, worker: Worker, key: Key, delivery: Row, now: Time, available: bool,
                  outcome: Outcome)
    requires Inv(repository.View()) && (key, delivery.attempts) in repository.View().copies
    requires repository.View().copies[(key, delivery.attempts)] == Copy(worker, delivery.expires, Claimed)
    requires delivery.status == Attempting && delivery.owner == Some(worker) && delivery.nextAttempt == 0
    modifies repository
    ensures Inv(repository.View())
    ensures var there := old(Updatable(repository.View(), key, worker));
            repository.View() ==
            Run(old(repository.View()), Attempt(key, delivery.attempts, available, there, outcome, now))
  {
    hide Inv, Run;
    ghost var s, n := repository.View(), delivery.attempts;
    RunNothing(s);
    if !available {
      StepKeepsInv(s, DropChannel(key, n));
      var abandoned := delivery.(status := Abandoned, owner := None, expires := 0, nextAttempt := 0);
      var written := repository.UpdateDelivery(key, worker, abandoned, Audit(key, IsAbandoned, delivery.attempts));
      repository.copies := repository.copies[(key, n) := Copy(worker, delivery.expires, Finished)];
      RunGrows(s, [], DropChannel(key, n));
      assert [] + [DropChannel(key, n)] == [DropChannel(key, n)];
      return;
    }
    ghost var mark := MarkRetrying(key, n);
    StepKeepsInv(s, mark);
    RunGrows(s, [], mark);
    assert [] + [mark] == [mark];
    var updated := repository.UpdateDelivery(key, worker, delivery, Audit(key, IsRetrying, delivery.attempts));
    repository.copies :=
      repository.copies[(key, n) := Copy(worker, delivery.expires, if updated then Ready else Finished)];
    assert [mark] + [] == [mark];
    if updated {
      FinishAttempt(repository, key, worker, delivery, outcome, now);
      RunGrows(s, [mark], Send(key, n, outcome));
      RunGrows(s, [mark] + [Send(key, n, outcome)], Finish(key, n, now));
      assert [mark] + [Send(key, n, outcome)] + [Finish(key, n, now)] ==
             [mark] + [Send(key, n, outcome), Finish(key, n, now)];
    }
  }

  lemma RunGrows(s: State, actions: seq<Action>, a: Action)
    ensures Run(s, actions + [a]) == Step(Run(s, actions), a)
  {
    hide Step;
    assert (actions + [a])[..|actions|] == actions;
  }

  /** The steps of a batch that claims these deliveries at these times, one after the other. */
  ghost function Batch(s: State, claims: seq<(Key, Time)>, worker: Worker, hasChannel: Key -> bool,
                       channel: (Key, nat) -> Outcome): seq<Action>
  {
    if claims == [] then []
    else
      var front := Batch(s, claims[..|claims| - 1], worker, hasChannel, channel);
      var (key, now) := claims[|claims| - 1];
      var n := RowOf(Run(s, front), key).attempts + 1;
      front + [Claim(key, worker, now)] + Attempt(key, n, hasChannel(key), true, channel(key, n), now)
  }

  /** The clock, but not before the time of the whole pass. */
  function NotBefore(at: Time, now: Time): Time {
    if now < at then at else now
  }

  /** Each delivery was due when it was claimed, at the clock reading of its round. */
  ghost predicate DueInTurn(s: State, claims: seq<(Key, Time)>, worker: Worker, hasChannel: Key -> bool,
                            channel: (Key, nat) -> Outcome, at: Time, clock: nat -> Time) {
    claims == [] ||
    var front := claims[..|claims| - 1];
    var before := Run(s, Batch(s, front, worker, hasChannel, channel));
    var (key, now) := claims[|claims| - 1];
    && now == NotBefore(at, clock(|front|)) && key in before.rows && Due(before.rows[key], now)
    && DueInTurn(s, front, worker, hasChannel, channel, at, clock)
  }

  /** Works through the deliveries that are due, one after the other: each is claimed at a time when it is due, and then
      given up for want of a channel, or marked, sent and finished with the channel's answer.  The pass ends when the
      batch is full or nothing is due any more. */
  method RetryDue(repository: DeliveryRepository, worker: Worker, at: Time, clock: nat -> Time, batch: nat,
                  hasChannel: Key -> bool, channel: (Key, nat) -> Outcome)
    returns (claims: seq<(Key, Time)>)
    requires Inv(repository.View())
    modifies repository
    ensures Inv(repository.View())
    ensures repository.View() ==
            Run(old(repository.View()), Batch(old(repository.View()), claims, worker, hasChannel, channel))
    ensures DueInTurn(old(repository.View()), claims, worker, hasChannel, channel, at, clock)
    ensures |claims| <= batch
    ensures |claims| < batch ==>
              forall k :: k in repository.rows ==> !Due(repository.rows[k], NotBefore(at, clock(|claims|)))
  {
    hide Inv, Step, Run, Attempt;
    claims := [];
    ghost var s := repository.View();
    RunNothing(s);
    for processed := 0 to batch
      invariant Inv(repository.View()) && |claims| == processed
      invariant repository.View() == Run(s, Batch(s, claims, worker, hasChannel, channel))
      invariant DueInTurn(s, claims, worker, hasChannel, channel, at, clock)
    {
      var now := NotBefore(at, clock(processed));
      ghost var front, before := Batch(s, claims, worker, hasChannel, channel), repository.View();
      var due := repository.ClaimDue(worker, now);
      if due.None? { return; }
      var key, delivery := due.value.0, due.value.1;
      RunGrows(s, front, Claim(key, worker, now));
      ClaimedIsThere(before, key, worker, now);
      RetryOne(repository, worker, key, delivery, now, hasChannel(key), channel(key, delivery.attempts));
      ghost var round := Attempt(key, delivery.attempts, hasChannel(key), true, channel(key, delivery.attempts), now);
      RunsCompose(s, front + [Claim(key, worker, now)], round);
      BatchGrows(s, claims, key, now, worker, hasChannel, channel);
      claims := claims + [(key, now)];
    }
  }

  lemma ClaimedIsThere(s: State, key: Key, worker: Worker, now: Time)
    requires key in s.rows && Due(s.rows[key], now)
    ensures Updatable(Step(s, Claim(key, worker, now)), key, worker)
  {
  }

  lemma BatchGrows(s: State, claims: seq<(Key, Time)>, key: Key, now: Time, worker: Worker, hasChannel: Key -> bool,
                   channel: (Key, nat) -> Outcome)
    ensures var front := Batch(s, claims, worker, hasChannel, channel);
            var n := RowOf(Run(s, front), key).attempts + 1;
            && (claims + [(key, now)])[..|claims|] == claims
            && Batch(s, claims + [(key, now)], worker, hasChannel, channel) ==
               front + [Claim(key, worker, now)] + Attempt(key, n, hasChannel(key), true, channel(key, n), now)
  {
    hide Run, Attempt;
    assert (claims + [(key, now)])[..|claims|] == claims;
  }

  lemma RunNothing(s: State)
    ensures Run(s, []) == s
  {
  }

  lemma {:induction false} RunsCompose(s: State, first: seq<Action>, rest: seq<Action>)
    ensures Run(s, first + rest) == Run(Run(s, first), rest)
  {
    hide Step;
    if rest == [] {
      assert first + rest == first;
    } else {
      RunsCompose(s, first, rest[..|rest| - 1]);
      assert (first + rest)[..|first + rest| - 1] == first + rest[..|rest| - 1];
    }
  }
}