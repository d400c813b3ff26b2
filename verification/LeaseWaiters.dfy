/** Who owns a leased secret (backend/internal/agent/controlclient.go: the credential lease waiters and, in the same
    form, the metric template lease waiters).

    A caller registers a waiter under a fresh nonce, sends its request and waits at a one-slot channel until a result
    comes or its context ends; on its way out it takes the waiter out of the registry, marks it cancelled and empties
    the slot.  A response, or the loss of the session, takes the waiter out of the registry, makes a result and delivers
    it some time later.  Each step below is one section under a mutex or one channel operation; any number of callers
    and responses interleave. */
module LeaseWaiters {
  import opened Wrappers

  type Nonce = string
  type WaiterId = nat
  type CourierId = nat

  /** What a request asks for and a lease has to answer: instance, assignment, database family and the two revisions. */
  datatype Request = Request(instance: string, assignment: string, family: string, configuration: nat, operation: nat)

  /** Every lease built from a response has a number of its own. */
  datatype Outcome = Lease(number: nat, request: Request) | Failure

  datatype Caller =
    | Sending
    | Waiting
    | Leaving(outcome: Outcome)    // about to leave the registry
    | Draining(outcome: Outcome)   // about to cancel the waiter and empty its slot
    | Gone

  datatype Waiter = Waiter(nonce: Nonce, request: Request, slot: Option<Outcome>, cancelled: bool, caller: Caller)

  /** A result on its way to a waiter. */
  datatype Courier = Courier(waiter: WaiterId, outcome: Outcome)

  datatype State = State(
    registry: map<Nonce, WaiterId>, waiters: map<WaiterId, Waiter>, couriers: map<CourierId, Courier>,
    built: set<nat>, returned: multiset<nat>, released: multiset<nat>)

  datatype Action =
    | Call(id: WaiterId, nonce: Nonce, request: Request)
    | Sent(id: WaiterId, ok: bool)
    | GiveUp(id: WaiterId)
    | Receive(id: WaiterId)
    | Leave(id: WaiterId)
    | Drain(id: WaiterId)
    | Respond(nonce: Nonce, request: Request, valid: bool, courier: CourierId, number: nat)
    | Fail(nonce: Nonce, courier: CourierId)
    | Deliver(courier: CourierId)

  // ---- Steps ---------------------------------------------------------------------------------

  /** Releasing a failure does nothing. */
  function Numbers(outcome: Outcome): multiset<nat> {
    if outcome.Lease? then multiset{outcome.number} else multiset{}
  }

  function SlotNumbers(slot: Option<Outcome>): multiset<nat> {
    if slot.Some? then Numbers(slot.value) else multiset{}
  }

  function SetWaiter(s: State, id: WaiterId, w: Waiter): State {
    s.(waiters := s.waiters[id := w])
  }

  function CallStep(s: State, id: WaiterId, nonce: Nonce, request: Request): State {
    if id in s.waiters || nonce in s.registry then s
    else
      s.(registry := s.registry[nonce := id], waiters := s.waiters[id := Waiter(nonce, request, None, false, Sending)])
  }

  function ReceiveStep(s: State, id: WaiterId): State
    requires id in s.waiters && s.waiters[id].slot.Some?
  {
    SetWaiter(s, id, s.waiters[id].(slot := None, caller := Leaving(s.waiters[id].slot.value)))
  }

  function LeaveStep(s: State, id: WaiterId, outcome: Outcome): State
    requires id in s.waiters
  {
    var w := s.waiters[id];
    var registry := if w.nonce in s.registry && s.registry[w.nonce] == id then s.registry - {w.nonce} else s.registry;
    s.(registry := registry, waiters := s.waiters[id := w.(caller := Draining(outcome))])
  }

  /** The caller returns what it has; what else is in the slot is released. */
  function DrainStep(s: State, id: WaiterId, outcome: Outcome): State
    requires id in s.waiters
  {
    var w := s.waiters[id];
    s.(waiters := s.waiters[id := w.(slot := None, cancelled := true, caller := Gone)],
       returned := s.returned + Numbers(outcome), released := s.released + SlotNumbers(w.slot))
  }

  /** A lease is built only for the waiter that asked, and only if it answers the request. */
  function RespondStep(s: State, nonce: Nonce, request: Request, valid: bool, courier: CourierId, number: nat): State
    requires nonce in s.registry && s.registry[nonce] in s.waiters
  {
    var id := s.registry[nonce];
    var fits := valid && request == s.waiters[id].request;
    var outcome := if fits then Lease(number, request) else Failure;
    s.(registry := s.registry - {nonce}, couriers := s.couriers[courier := Courier(id, outcome)],
       built := if fits then s.built + {number} else s.built)
  }

  function FailStep(s: State, nonce: Nonce, courier: CourierId): State
    requires nonce in s.registry
  {
    s.(registry := s.registry - {nonce}, couriers := s.couriers[courier := Courier(s.registry[nonce], Failure)])
  }

  function DeliverStep(s: State, courier: CourierId): State
    requires courier in s.couriers && s.couriers[courier].waiter in s.waiters
  {
    var c := s.couriers[courier];
    var w := s.waiters[c.waiter];
    if w.cancelled || w.slot.Some?
      then s.(couriers := s.couriers - {courier}, released := s.released + Numbers(c.outcome))
    else s.(couriers := s.couriers - {courier}, waiters := s.waiters[c.waiter := w.(slot := Some(c.outcome))])
  }

  predicate CallerAt(s: State, id: WaiterId, caller: Caller) {
    id in s.waiters && s.waiters[id].caller == caller
  }

  function Step(s: State, a: Action): State {
    match a
    case Call(id, nonce, request) => CallStep(s, id, nonce, request)
    case Sent(id, ok) =>
      if CallerAt(s, id, Sending)
      then SetWaiter(s, id, s.waiters[id].(caller := if ok then Waiting else Leaving(Failure)))
      else s
    case GiveUp(id) =>
      if CallerAt(s, id, Waiting) then SetWaiter(s, id, s.waiters[id].(caller := Leaving(Failure))) else s
    case Receive(id) => if CallerAt(s, id, Waiting) && s.waiters[id].slot.Some? then ReceiveStep(s, id) else s
    case Leave(id) =>
      if id in s.waiters && s.waiters[id].caller.Leaving? then LeaveStep(s, id, s.waiters[id].caller.outcome) else s
    case Drain(id) =>
      if id in s.waiters && s.waiters[id].caller.Draining? then DrainStep(s, id, s.waiters[id].caller.outcome) else s
    case Respond(nonce, request, valid, courier, number) =>
      if nonce in s.registry && s.registry[nonce] in s.waiters && courier !in s.couriers && number !in s.built
      then RespondStep(s, nonce, request, valid, courier, number) else s
    case Fail(nonce, courier) =>
      if nonce in s.registry && courier !in s.couriers then FailStep(s, nonce, courier) else s
    case Deliver(courier) =>
      if courier in s.couriers && s.couriers[courier].waiter in s.waiters then DeliverStep(s, courier) else s
  }

  function Run(s: State, actions: seq<Action>): State {
    if actions == [] then s else Step(Run(s, actions[..|actions| - 1]), actions[|actions| - 1])
  }

  function Idle(): State {
    State(map[], map[], map[], {}, multiset{}, multiset{})
  }

  // ---- Where a lease can be ------------------------------------------------------------------

  datatype Place = Carried(courier: CourierId) | Slot(waiter: WaiterId) | Hand(waiter: WaiterId)

  /** What is at a place. */
  function OutcomeAt(s: State, p: Place): Outcome {
    match p
    case Carried(c) => if c in s.couriers then s.couriers[c].outcome else Failure
    case Slot(w) => if w in s.waiters && s.waiters[w].slot.Some? then s.waiters[w].slot.value else Failure
    case Hand(w) =>
      if w in s.waiters && (s.waiters[w].caller.Leaving? || s.waiters[w].caller.Draining?)
      then s.waiters[w].caller.outcome
      else Failure
  }

  /** The place has the lease with this number. */
  predicate Holds(s: State, p: Place, n: nat) {
    OutcomeAt(s, p).Lease? && OutcomeAt(s, p).number == n
  }

  /** The waiter a place belongs to. */
  function Owner(s: State, p: Place): WaiterId {
    match p
    case Carried(c) => if c in s.couriers then s.couriers[c].waiter else 0
    case Slot(w) => w
    case Hand(w) => w
  }

  function Settled(s: State, n: nat): nat {
    s.returned[n] + s.released[n]
  }

  /** Every lease is at one place, or was returned once, or was released once; nothing else exists. */
  ghost predicate LeaseInv(s: State) {
    && (forall n, p, q :: Holds(s, p, n) && Holds(s, q, n) ==> p == q)
    && (forall n, p :: Holds(s, p, n) ==> n in s.built && Settled(s, n) == 0)
    && (forall n :: n in s.built && Settled(s, n) == 0 ==> exists p :: Holds(s, p, n))
    && (forall n :: Settled(s, n) <= 1 && (Settled(s, n) == 1 ==> n in s.built))
  }

  /** A registered waiter is one that nothing has been made for; there is at most one result for each waiter. */
  ghost predicate WaiterInv(s: State) {
    && (forall nonce :: nonce in s.registry ==>
          s.registry[nonce] in s.waiters && s.waiters[s.registry[nonce]].nonce == nonce)
    && (forall c :: c in s.couriers ==> Unanswered(s, s.couriers[c].waiter))
    && (forall c, e :: c in s.couriers && e in s.couriers && s.couriers[c].waiter == s.couriers[e].waiter ==> c == e)
    && (forall id :: id in s.waiters && Registered(s, id) ==>
          Unanswered(s, id) && forall c :: c in s.couriers ==> s.couriers[c].waiter != id)
    && (forall id :: id in s.waiters ==>
          && (s.waiters[id].caller.Gone? <==> s.waiters[id].cancelled)
          && (s.waiters[id].caller.Gone? ==> s.waiters[id].slot.None? && !Registered(s, id))
          && (s.waiters[id].caller.Draining? ==> !Registered(s, id)))
  }

  predicate Registered(s: State, id: WaiterId) {
    id in s.waiters && s.waiters[id].nonce in s.registry && s.registry[s.waiters[id].nonce] == id
  }

  /** Nothing has reached the waiter's slot. */
  predicate Unanswered(s: State, id: WaiterId) {
    id in s.waiters && s.waiters[id].slot.None?
  }

  /** Whatever is on its way to a waiter, in its slot or in its caller's hand answers its request. */
  ghost predicate AnswerInv(s: State) {
    forall p :: OutcomeAt(s, p).Lease? ==>
      Owner(s, p) in s.waiters && s.waiters[Owner(s, p)].request == OutcomeAt(s, p).request
  }

  ghost predicate Inv(s: State) {
    LeaseInv(s) && WaiterInv(s) && AnswerInv(s)
  }

  // ---- Leases stay in one place --------------------------------------------------------------

  lemma NothingMoves(s: State, s': State)
    requires LeaseInv(s) && s'.built == s.built && s'.returned == s.returned && s'.released == s.released
    requires forall p :: OutcomeAt(s', p) == OutcomeAt(s, p)
    ensures LeaseInv(s')
  {
    hide OutcomeAt;
    forall n | n in s'.built && Settled(s', n) == 0 ensures exists p :: Holds(s', p, n) {
      var p :| Holds(s, p, n);
      assert Holds(s', p, n);
    }
    forall n, p, q | Holds(s', p, n) && Holds(s', q, n) ensures p == q { assert Holds(s, p, n) && Holds(s, q, n); }
    forall n, p | Holds(s', p, n) ensures n in s'.built && Settled(s', n) == 0 { assert Holds(s, p, n); }
    forall n ensures Settled(s', n) <= 1 && (Settled(s', n) == 1 ==> n in s'.built) {
      assert Settled(s', n) == Settled(s, n);
    }
  }

  /** A result goes from one place to an empty one. */
  lemma OneMoves(s: State, s': State, from: Place, to: Place)
    requires LeaseInv(s) && s'.built == s.built && s'.returned == s.returned && s'.released == s.released && from != to
    requires OutcomeAt(s, to).Failure? && OutcomeAt(s', to) == OutcomeAt(s, from) && OutcomeAt(s', from).Failure?
    requires forall p :: p != from && p != to ==> OutcomeAt(s', p) == OutcomeAt(s, p)
    ensures LeaseInv(s')
  {
    hide OutcomeAt;
    forall n | n in s'.built && Settled(s', n) == 0 ensures exists p :: Holds(s', p, n) {
      var p :| Holds(s, p, n);
      assert Holds(s', if p == from then to else p, n);
    }
    forall n, p, q | Holds(s', p, n) && Holds(s', q, n) ensures p == q {
      assert Holds(s, if p == to then from else p, n) && Holds(s, if q == to then from else q, n);
    }
    forall n, p | Holds(s', p, n) ensures n in s'.built && Settled(s', n) == 0 {
      assert Holds(s, if p == to then from else p, n);
      assert Settled(s', n) == Settled(s, n);
    }
    forall n ensures Settled(s', n) <= 1 && (Settled(s', n) == 1 ==> n in s'.built) {
      assert Settled(s', n) == Settled(s, n);
    }
  }

  /** A result leaves a place for good: it is returned or released. */
  lemma OneSettles(s: State, s': State, from: Place)
    requires LeaseInv(s) && s'.built == s.built && OutcomeAt(s', from).Failure?
    requires s'.returned + s'.released == s.returned + s.released + Numbers(OutcomeAt(s, from))
    requires forall p :: p != from ==> OutcomeAt(s', p) == OutcomeAt(s, p)
    ensures LeaseInv(s')
  {
    hide OutcomeAt;
    forall n ensures Settled(s', n) == Settled(s, n) + if Holds(s, from, n) then 1 else 0 {
      assert (s'.returned + s'.released)[n] == (s.returned + s.released + Numbers(OutcomeAt(s, from)))[n];
    }
    forall n | n in s'.built && Settled(s', n) == 0 ensures exists p :: Holds(s', p, n) {
      var p :| Holds(s, p, n);
      assert Holds(s', p, n);
    }
    forall n, p, q | Holds(s', p, n) && Holds(s', q, n) ensures p == q { assert Holds(s, p, n) && Holds(s, q, n); }
    forall n, p | Holds(s', p, n) ensures n in s'.built && Settled(s', n) == 0 { assert Holds(s, p, n); }
    forall n ensures Settled(s', n) <= 1 && (Settled(s', n) == 1 ==> n in s'.built) {
      assert Holds(s, from, n) ==> n in s.built && Settled(s, n) == 0;
    }
  }

  /** A new lease, or no lease, appears at an empty place. */
  lemma OneAppears(s: State, s': State, at: Place, number: nat)
    requires LeaseInv(s) && number !in s.built && s'.returned == s.returned && s'.released == s.released
    requires OutcomeAt(s, at).Failure? && (OutcomeAt(s', at).Lease? ==> OutcomeAt(s', at).number == number)
    requires s'.built == if OutcomeAt(s', at).Lease? then s.built + {number} else s.built
    requires forall p :: p != at ==> OutcomeAt(s', p) == OutcomeAt(s, p)
    ensures LeaseInv(s')
  {
    hide OutcomeAt;
    forall n | n in s'.built && Settled(s', n) == 0 ensures exists p :: Holds(s', p, n) {
      if n == number {
        assert Holds(s', at, n);
      } else {
        assert Settled(s, n) == 0;
        var p :| Holds(s, p, n);
        assert Holds(s', p, n);
      }
    }
    forall n, p, q | Holds(s', p, n) && Holds(s', q, n) ensures p == q {
      assert p != at ==> Holds(s, p, n);
      assert q != at ==> Holds(s, q, n);
    }
    forall n, p | Holds(s', p, n) ensures n in s'.built && Settled(s', n) == 0 {
      assert p != at ==> Holds(s, p, n);
      assert Settled(s, number) != 1;
      assert Settled(s', n) == Settled(s, n);
    }
    forall n ensures Settled(s', n) <= 1 && (Settled(s', n) == 1 ==> n in s'.built) {
      assert Settled(s', n) == Settled(s, n);
    }
  }

  // ---- Every step keeps the invariant --------------------------------------------------------

  lemma CallKeeps(s: State, id: WaiterId, nonce: Nonce, request: Request)
    requires Inv(s)
    ensures Inv(CallStep(s, id, nonce, request))
  {
    hide LeaseInv, WaiterInv;
    var s' := CallStep(s, id, nonce, request);
    if id !in s.waiters && nonce !in s.registry {
      NothingMoves(s, s');
      CallKeepsWaiters(s, id, nonce, request);
    }
  }

  lemma CallKeepsWaiters(s: State, id: WaiterId, nonce: Nonce, request: Request)
    requires WaiterInv(s) && id !in s.waiters && nonce !in s.registry
    ensures WaiterInv(CallStep(s, id, nonce, request))
  {
    var s' := CallStep(s, id, nonce, request);
    assert forall w :: Registered(s', w) <==> Registered(s, w) || w == id;
  }

  /** The caller moves on without touching slot or registry. */
  lemma CallerMoves(s: State, id: WaiterId, caller: Caller)
    requires Inv(s) && id in s.waiters && s.waiters[id].caller in {Sending, Waiting}
             && caller in {Waiting, Leaving(Failure)}
    ensures Inv(SetWaiter(s, id, s.waiters[id].(caller := caller)))
  {
    hide LeaseInv, WaiterInv;
    NothingMoves(s, SetWaiter(s, id, s.waiters[id].(caller := caller)));
    CallerMovesWaiters(s, id, caller);
  }

  lemma CallerMovesWaiters(s: State, id: WaiterId, caller: Caller)
    requires WaiterInv(s) && id in s.waiters && s.waiters[id].caller in {Sending, Waiting}
             && caller in {Waiting, Leaving(Failure)}
    ensures WaiterInv(SetWaiter(s, id, s.waiters[id].(caller := caller)))
  {
    var s' := SetWaiter(s, id, s.waiters[id].(caller := caller));
    assert forall w :: Registered(s', w) <==> Registered(s, w);
  }

  lemma ReceiveKeeps(s: State, id: WaiterId)
    requires Inv(s) && CallerAt(s, id, Waiting) && s.waiters[id].slot.Some?
    ensures Inv(ReceiveStep(s, id))
  {
    hide LeaseInv, WaiterInv;
    var s' := ReceiveStep(s, id);
    OneMoves(s, s', Slot(id), Hand(id));
    ReceiveKeepsWaiters(s, id);
    assert AnswerInv(s') by {
      assert OutcomeAt(s', Hand(id)) == OutcomeAt(s, Slot(id));
      forall p | OutcomeAt(s', p).Lease?
        ensures Owner(s', p) in s'.waiters && s'.waiters[Owner(s', p)].request == OutcomeAt(s', p).request
      {
        assert p != Hand(id) ==> OutcomeAt(s, p) == OutcomeAt(s', p) && Owner(s, p) == Owner(s', p);
      }
    }
  }

  lemma ReceiveKeepsWaiters(s: State, id: WaiterId)
    requires WaiterInv(s) && CallerAt(s, id, Waiting) && s.waiters[id].slot.Some?
    ensures WaiterInv(ReceiveStep(s, id))
  {
    var s' := ReceiveStep(s, id);
    assert forall w :: Registered(s', w) <==> Registered(s, w);
  }

  lemma LeaveKeeps(s: State, id: WaiterId, outcome: Outcome)
    requires Inv(s) && CallerAt(s, id, Leaving(outcome))
    ensures Inv(LeaveStep(s, id, outcome))
  {
    hide LeaseInv, WaiterInv;
    var s' := LeaveStep(s, id, outcome);
    NothingMoves(s, s');
    LeaveKeepsWaiters(s, id, outcome);
  }

  lemma LeaveKeepsWaiters(s: State, id: WaiterId, outcome: Outcome)
    requires WaiterInv(s) && CallerAt(s, id, Leaving(outcome))
    ensures WaiterInv(LeaveStep(s, id, outcome))
  {
    var s' := LeaveStep(s, id, outcome);
    assert forall w :: Registered(s', w) <==> Registered(s, w) && w != id;
  }

  lemma DrainKeeps(s: State, id: WaiterId, outcome: Outcome)
    requires Inv(s) && CallerAt(s, id, Draining(outcome))
    ensures Inv(DrainStep(s, id, outcome))
  {
    hide LeaseInv, WaiterInv, AnswerInv;
    DrainKeepsLeases(s, id, outcome);
    DrainKeepsWaiters(s, id, outcome);
    DrainKeepsAnswers(s, id, outcome);
  }

  lemma DrainKeepsLeases(s: State, id: WaiterId, outcome: Outcome)
    requires LeaseInv(s) && CallerAt(s, id, Draining(outcome))
    ensures LeaseInv(DrainStep(s, id, outcome))
  {
    hide LeaseInv;
    var s' := DrainStep(s, id, outcome);
    var w := s.waiters[id];
    var handed := s.(waiters := s.waiters[id := w.(caller := Gone)], returned := s.returned + Numbers(outcome));
    OneSettles(s, handed, Hand(id));
    OneSettles(handed, s', Slot(id));
  }

  lemma DrainKeepsAnswers(s: State, id: WaiterId, outcome: Outcome)
    requires AnswerInv(s) && CallerAt(s, id, Draining(outcome))
    ensures AnswerInv(DrainStep(s, id, outcome))
  {
    var s' := DrainStep(s, id, outcome);
    forall p | OutcomeAt(s', p).Lease?
      ensures Owner(s', p) in s'.waiters && s'.waiters[Owner(s', p)].request == OutcomeAt(s', p).request
    {
      assert OutcomeAt(s, p) == OutcomeAt(s', p) && Owner(s, p) == Owner(s', p);
    }
  }

  lemma DrainKeepsWaiters(s: State, id: WaiterId, outcome: Outcome)
    requires WaiterInv(s) && CallerAt(s, id, Draining(outcome))
    ensures WaiterInv(DrainStep(s, id, outcome))
  {
    var s' := DrainStep(s, id, outcome);
    assert forall w :: Registered(s', w) <==> Registered(s, w);
  }

  /** A registered waiter leaves the registry and a result for it sets out. */
  lemma CourierKeepsWaiters(s: State, s': State, nonce: Nonce, courier: CourierId, outcome: Outcome)
    requires WaiterInv(s) && nonce in s.registry && courier !in s.couriers
    requires s'.registry == s.registry - {nonce} && s'.waiters == s.waiters
    requires s'.couriers == s.couriers[courier := Courier(s.registry[nonce], outcome)]
    ensures WaiterInv(s')
  {
    var id := s.registry[nonce];
    assert Registered(s, id);
    assert forall w :: Registered(s', w) <==> Registered(s, w) && w != id;
  }

  lemma RespondKeeps(s: State, nonce: Nonce, request: Request, valid: bool, courier: CourierId, number: nat)
    requires Inv(s) && nonce in s.registry && courier !in s.couriers && number !in s.built
             && s.registry[nonce] in s.waiters
    ensures Inv(RespondStep(s, nonce, request, valid, courier, number))
  {
    hide LeaseInv, WaiterInv;
    var s' := RespondStep(s, nonce, request, valid, courier, number);
    OneAppears(s, s', Carried(courier), number);
    CourierKeepsWaiters(s, s', nonce, courier, s'.couriers[courier].outcome);
  }

  lemma FailKeeps(s: State, nonce: Nonce, courier: CourierId)
    requires Inv(s) && nonce in s.registry && courier !in s.couriers
    ensures Inv(FailStep(s, nonce, courier))
  {
    hide LeaseInv, WaiterInv;
    var s' := FailStep(s, nonce, courier);
    NothingMoves(s, s');
    CourierKeepsWaiters(s, s', nonce, courier, Failure);
  }

  /** The slot is never found full: the channel send never falls through to a release for want of room. */
  lemma SlotIsNeverFull(s: State, courier: CourierId)
    requires Inv(s) && courier in s.couriers
    ensures s.couriers[courier].waiter in s.waiters && s.waiters[s.couriers[courier].waiter].slot.None?
  {
  }

  lemma DeliverKeeps(s: State, courier: CourierId)
    requires Inv(s) && courier in s.couriers && s.couriers[courier].waiter in s.waiters
    ensures Inv(DeliverStep(s, courier))
  {
    hide LeaseInv;
    var s', c := DeliverStep(s, courier), s.couriers[courier];
    SlotIsNeverFull(s, courier);
    if s.waiters[c.waiter].cancelled {
      OneSettles(s, s', Carried(courier));
    } else {
      OneMoves(s, s', Carried(courier), Slot(c.waiter));
    }
    DeliverKeepsWaiters(s, courier);
    DeliverKeepsAnswers(s, courier);
  }

  lemma DeliverKeepsWaiters(s: State, courier: CourierId)
    requires WaiterInv(s) && courier in s.couriers && s.couriers[courier].waiter in s.waiters
    ensures WaiterInv(DeliverStep(s, courier))
  {
    var s' := DeliverStep(s, courier);
    assert forall w :: Registered(s', w) <==> Registered(s, w);
  }

  lemma DeliverKeepsAnswers(s: State, courier: CourierId)
    requires AnswerInv(s) && courier in s.couriers && s.couriers[courier].waiter in s.waiters
    ensures AnswerInv(DeliverStep(s, courier))
  {
    var s', c := DeliverStep(s, courier), s.couriers[courier];
    assert OutcomeAt(s, Carried(courier)) == c.outcome && Owner(s, Carried(courier)) == c.waiter;
    forall p | OutcomeAt(s', p).Lease?
      ensures Owner(s', p) in s'.waiters && s'.waiters[Owner(s', p)].request == OutcomeAt(s', p).request
    {
      if OutcomeAt(s', p) == OutcomeAt(s, p) { assert Owner(s', p) == Owner(s, p); }
    }
  }

  lemma StepKeepsInv(s: State, a: Action)
    requires Inv(s)
    ensures Inv(Step(s, a))
  {
    hide Inv, CallStep, LeaveStep, DrainStep, ReceiveStep, RespondStep, FailStep, DeliverStep, SetWaiter;
    match a
    case Call(id, nonce, request) => CallKeeps(s, id, nonce, request);
    case Sent(id, ok) => if CallerAt(s, id, Sending) { CallerMoves(s, id, if ok then Waiting else Leaving(Failure)); }
    case GiveUp(id) => if CallerAt(s, id, Waiting) { CallerMoves(s, id, Leaving(Failure)); }
    case Receive(id) => if CallerAt(s, id, Waiting) && s.waiters[id].slot.Some? { ReceiveKeeps(s, id); }
    case Leave(id) =>
      if id in s.waiters && s.waiters[id].caller.Leaving? { LeaveKeeps(s, id, s.waiters[id].caller.outcome); }
    case Drain(id) =>
      if id in s.waiters && s.waiters[id].caller.Draining? { DrainKeeps(s, id, s.waiters[id].caller.outcome); }
    case Respond(nonce, request, valid, courier, number) =>
      if nonce in s.registry && s.registry[nonce] in s.waiters && courier !in s.couriers && number !in s.built {
        RespondKeeps(s, nonce, request, valid, courier, number);
      }
    case Fail(nonce, courier) => if nonce in s.registry && courier !in s.couriers { FailKeeps(s, nonce, courier); }
    case Deliver(courier) =>
      if courier in s.couriers && s.couriers[courier].waiter in s.waiters { DeliverKeeps(s, courier); }
  }

  lemma {:induction false} RunsKeepInv(s: State, actions: seq<Action>)
    requires Inv(s)
    ensures Inv(Run(s, actions))
  {
    hide Step, Inv;
    if actions != [] {
      RunsKeepInv(s, actions[..|actions| - 1]);
      StepKeepsInv(Run(s, actions[..|actions| - 1]), actions[|actions| - 1]);
    }
  }

  lemma IdleInv()
    ensures Inv(Idle())
  {
  }

  // ---- What holds in every run ---------------------------------------------------------------

  /** In every run no lease is returned or released more than once, and none is both; a lease that was returned or
      released is nowhere any more. */
  lemma LeasesHaveOneOwner(actions: seq<Action>, n: nat)
    ensures var s := Run(Idle(), actions);
            && s.returned[n] + s.released[n] <= 1 && (s.returned[n] + s.released[n] == 1 ==> n in s.built)
            && (forall p, q :: Holds(s, p, n) && Holds(s, q, n) ==> p == q)
            && (forall p :: Holds(s, p, n) ==> s.returned[n] + s.released[n] == 0)
  {
    hide Run, WaiterInv, AnswerInv, OutcomeAt;
    IdleInv();
    RunsKeepInv(Idle(), actions);
    var s := Run(Idle(), actions);
    assert Settled(s, n) == s.returned[n] + s.released[n];
  }

  /** Once every caller has returned and every result has been delivered, each lease ever built was returned to one
      caller or released, and none is left in a channel. */
  lemma NoLeaseIsLeftBehind(actions: seq<Action>, n: nat)
    ensures var s := Run(Idle(), actions);
            (forall id :: id in s.waiters ==> s.waiters[id].caller.Gone?) && s.couriers == map[] && n in s.built ==>
              s.returned[n] + s.released[n] == 1
  {
    hide Run, AnswerInv;
    IdleInv();
    RunsKeepInv(Idle(), actions);
    var s := Run(Idle(), actions);
    if (forall id :: id in s.waiters ==> s.waiters[id].caller.Gone?) && s.couriers == map[] && n in s.built {
      assert forall p :: !Holds(s, p, n);
      assert Settled(s, n) == s.returned[n] + s.released[n];
    }
  }

  /** A waiter whose caller has returned has an empty slot and takes nothing any more. */
  lemma GoneWaiterStaysEmpty(actions: seq<Action>, id: WaiterId)
    ensures var s := Run(Idle(), actions);
            id in s.waiters && s.waiters[id].caller.Gone? ==> s.waiters[id].slot.None? && s.waiters[id].cancelled
  {
    hide Run, AnswerInv, LeaseInv;
    IdleInv();
    RunsKeepInv(Idle(), actions);
  }

  /** A lease that a caller is about to return answers that caller's request. */
  lemma LeaseAnswersItsRequest(actions: seq<Action>, id: WaiterId)
    ensures var s := Run(Idle(), actions);
            id in s.waiters && s.waiters[id].caller.Draining? && s.waiters[id].caller.outcome.Lease? ==>
              s.waiters[id].caller.outcome.request == s.waiters[id].request
  {
    hide Run, WaiterInv, LeaseInv;
    IdleInv();
    RunsKeepInv(Idle(), actions);
    var s := Run(Idle(), actions);
    assert Owner(s, Hand(id)) == id;
    if id in s.waiters && s.waiters[id].caller.Draining? {
      assert OutcomeAt(s, Hand(id)) == s.waiters[id].caller.outcome;
    }
  }

  // ---- A caller that waits gets its lease ----------------------------------------------------

  /** A response makes a lease for the waiter that is registered under its nonce exactly when it is valid and answers
      that waiter's request, and a failure otherwise. */
  lemma ResponseMakesLeaseExactlyWhen(s: State, nonce: Nonce, request: Request, valid: bool, courier: CourierId,
                                      number: nat)
    requires Inv(s) && nonce in s.registry && courier !in s.couriers && number !in s.built
    ensures var s', id := Step(s, Respond(nonce, request, valid, courier, number)), s.registry[nonce];
            && id in s.waiters && courier in s'.couriers && s'.couriers[courier].waiter == id && nonce !in s'.registry
            && (s'.couriers[courier].outcome == Lease(number, request) <==> valid && request == s.waiters[id].request)
            && (s'.couriers[courier].outcome == Failure <==> !valid || request != s.waiters[id].request)
            && s'.waiters == s.waiters && s'.released == s.released && s'.returned == s.returned
  {
    hide LeaseInv, AnswerInv;
  }

  /** A result reaches its waiter's slot exactly when the caller has not returned, and is released exactly when it
      has. */
  lemma DeliveryReachesWaiterExactlyWhen(s: State, courier: CourierId)
    requires Inv(s) && courier in s.couriers
    ensures var s', id, outcome := Step(s, Deliver(courier)), s.couriers[courier].waiter, s.couriers[courier].outcome;
            && id in s.waiters && id in s'.waiters && courier !in s'.couriers
            && (s'.waiters[id].slot == Some(outcome) <==> !s.waiters[id].caller.Gone?)
            && s'.released == s.released + (if s.waiters[id].caller.Gone? then Numbers(outcome) else multiset{})
            && s'.returned == s.returned && s'.waiters[id].caller == s.waiters[id].caller
  {
    hide LeaseInv, AnswerInv;
    SlotIsNeverFull(s, courier);
  }

  /** The caller has this lease coming: it has returned it, has it in hand, or waits while the lease is on its way. */
  ghost predicate Owed(s: State, id: WaiterId, n: nat) {
    || s.returned[n] == 1
    || Holds(s, Hand(id), n)
    || (id in s.waiters && s.waiters[id].caller in {Sending, Waiting} && Coming(s, id, n))
  }

  /** The lease is on its way to the waiter or in its slot. */
  ghost predicate Coming(s: State, id: WaiterId, n: nat) {
    Holds(s, Slot(id), n) || exists c :: Brings(s, c, id, n)
  }

  predicate Brings(s: State, c: CourierId, id: WaiterId, n: nat) {
    c in s.couriers && s.couriers[c].waiter == id && s.couriers[c].outcome.Lease? && s.couriers[c].outcome.number == n
  }

  /** The caller stops waiting for a result. */
  predicate StopsWaiting(a: Action, id: WaiterId) {
    a == GiveUp(id) || a == Sent(id, false)
  }

  lemma ReturnedStays(s: State, a: Action, n: nat)
    requires Inv(s) && s.returned[n] == 1
    ensures Step(s, a).returned[n] == 1
  {
    hide Inv, Step;
    StepKeepsInv(s, a);
    ReturnedGrows(s, a, n);
    OnceAtMost(Step(s, a), n);
  }

  lemma ReturnedGrows(s: State, a: Action, n: nat)
    ensures s.returned[n] <= Step(s, a).returned[n]
  {
  }

  lemma OnceAtMost(s: State, n: nat)
    requires Inv(s)
    ensures s.returned[n] + s.released[n] <= 1
  {
    hide WaiterInv, AnswerInv, Holds;
    assert Settled(s, n) == s.returned[n] + s.released[n];
  }

  lemma HandStays(s: State, a: Action, id: WaiterId, n: nat)
    requires Inv(s) && Holds(s, Hand(id), n)
    ensures Holds(Step(s, a), Hand(id), n) || Step(s, a).returned[n] >= 1
  {
    hide Inv;
  }

  /** The step is one of this waiter's caller, or a delivery to it. */
  predicate About(s: State, a: Action, id: WaiterId) {
    match a
    case Sent(i, _) => i == id
    case GiveUp(i) => i == id
    case Receive(i) => i == id
    case Leave(i) => i == id
    case Drain(i) => i == id
    case Deliver(c) => c in s.couriers && s.couriers[c].waiter == id
    case _ => false
  }

  lemma OthersLeaveWaiter(s: State, a: Action, id: WaiterId)
    requires id in s.waiters && !About(s, a, id)
    ensures id in Step(s, a).waiters && Step(s, a).waiters[id] == s.waiters[id]
  {
  }

  lemma SlotStays(s: State, a: Action, id: WaiterId, n: nat)
    requires Holds(s, Slot(id), n) && s.waiters[id].caller in {Sending, Waiting} && !StopsWaiting(a, id)
    requires a.Deliver? && a.courier in s.couriers ==> s.couriers[a.courier].waiter != id
    ensures var s' := Step(s, a);
            || Holds(s', Hand(id), n)
            || (id in s'.waiters && s'.waiters[id].caller in {Sending, Waiting} && Holds(s', Slot(id), n))
  {
    if !About(s, a, id) {
      hide Step;
      OthersLeaveWaiter(s, a, id);
    }
  }

  lemma CallerWaitsOn(s: State, a: Action, id: WaiterId)
    requires id in s.waiters && s.waiters[id].caller in {Sending, Waiting} && Unanswered(s, id) && !StopsWaiting(a, id)
    ensures id in Step(s, a).waiters && Step(s, a).waiters[id].caller in {Sending, Waiting}
  {
  }

  lemma CourierGoesOn(s: State, a: Action, c: CourierId)
    requires c in s.couriers && a != Deliver(c)
    ensures c in Step(s, a).couriers && Step(s, a).couriers[c] == s.couriers[c]
  {
  }

  lemma CourierStays(s: State, a: Action, c: CourierId, id: WaiterId, n: nat)
    requires id in s.waiters && s.waiters[id].caller in {Sending, Waiting} && Unanswered(s, id)
             && !s.waiters[id].cancelled
    requires Brings(s, c, id, n) && !StopsWaiting(a, id)
    ensures var s' := Step(s, a);
            && id in s'.waiters && s'.waiters[id].caller in {Sending, Waiting}
            && (Brings(s', c, id, n) || Holds(s', Slot(id), n))
  {
    CallerWaitsOn(s, a, id);
    if a != Deliver(c) {
      hide Step;
      CourierGoesOn(s, a, c);
    }
  }

  /** What the invariant says of a caller that waits. */
  lemma WaitingFacts(s: State, id: WaiterId)
    requires WaiterInv(s) && id in s.waiters && s.waiters[id].caller in {Sending, Waiting}
    ensures !s.waiters[id].cancelled
    ensures forall c :: c in s.couriers && s.couriers[c].waiter == id ==> Unanswered(s, id)
  {
  }

  /** No step takes an owed lease away from a caller that goes on waiting. */
  lemma OwedStays(s: State, a: Action, id: WaiterId, n: nat)
    requires Inv(s) && Owed(s, id, n) && !StopsWaiting(a, id)
    ensures Owed(Step(s, a), id, n)
  {
    hide LeaseInv, WaiterInv, AnswerInv, Step, Holds, Brings, Unanswered;
    StepKeepsInv(s, a);
    OnceAtMost(Step(s, a), n);
    if s.returned[n] == 1 { ReturnedStays(s, a, n); }
    else if Holds(s, Hand(id), n) { HandStays(s, a, id, n); }
    else if Holds(s, Slot(id), n) {
      WaitingFacts(s, id);
      SlotIsTaken(s, id, n);
      SlotStays(s, a, id, n);
    } else {
      WaitingFacts(s, id);
      var c :| Brings(s, c, id, n);
      BringsTo(s, c, id, n);
      CourierStays(s, a, c, id, n);
    }
  }

  lemma SlotIsTaken(s: State, id: WaiterId, n: nat)
    requires Holds(s, Slot(id), n)
    ensures !Unanswered(s, id)
  {
  }

  lemma BringsTo(s: State, c: CourierId, id: WaiterId, n: nat)
    requires Brings(s, c, id, n)
    ensures c in s.couriers && s.couriers[c].waiter == id
  {
  }

  /** An owed lease has not been released. */
  lemma OwedIsNotReleased(s: State, id: WaiterId, n: nat)
    requires Inv(s) && Owed(s, id, n)
    ensures s.released[n] == 0
  {
    hide WaiterInv, AnswerInv;
    OnceAtMost(s, n);
    if exists c :: Brings(s, c, id, n) {
      var c :| Brings(s, c, id, n);
      assert Holds(s, Carried(c), n);
    }
    assert Settled(s, n) == s.returned[n] + s.released[n];
  }

  /** In every continuation in which the caller goes on waiting, a lease made for it is never released, and once all
      callers have returned and all results are delivered it has been returned. */
  lemma {:induction false} PatientCallerGetsLease(s: State, actions: seq<Action>, id: WaiterId, n: nat)
    requires Inv(s) && Owed(s, id, n) && forall i :: 0 <= i < |actions| ==> !StopsWaiting(actions[i], id)
    ensures var s' := Run(s, actions);
            && Inv(s') && Owed(s', id, n) && s'.released[n] == 0
            && ((forall w :: w in s'.waiters ==> s'.waiters[w].caller.Gone?) ==> s'.returned[n] == 1)
  {
    hide Inv, Step;
    if actions != [] {
      var front := actions[..|actions| - 1];
      PatientCallerGetsLease(s, front, id, n);
      OwedStays(Run(s, front), actions[|actions| - 1], id, n);
      StepKeepsInv(Run(s, front), actions[|actions| - 1]);
    }
    OwedIsNotReleased(Run(s, actions), id, n);
  }

  /** The fitting response itself makes the lease owed to a caller that has not stopped waiting. */
  lemma FittingResponseIsOwed(s: State, nonce: Nonce, request: Request, courier: CourierId, number: nat)
    requires Inv(s) && nonce in s.registry && courier !in s.couriers && number !in s.built
    requires s.registry[nonce] in s.waiters && s.waiters[s.registry[nonce]].request == request
    requires s.waiters[s.registry[nonce]].caller in {Sending, Waiting}
    ensures Owed(Step(s, Respond(nonce, request, true, courier, number)), s.registry[nonce], number)
  {
    hide Inv, Step;
    ResponseMakesLeaseExactlyWhen(s, nonce, request, true, courier, number);
    assert Brings(Step(s, Respond(nonce, request, true, courier, number)), courier, s.registry[nonce], number);
  }

  /** What is left to do for a waiting caller whose lease is on its way: deliver, receive, leave and drain return it. */
  lemma WaitingLeaseIsReturned(s: State, courier: CourierId, n: nat)
    requires Inv(s) && courier in s.couriers && Brings(s, courier, s.couriers[courier].waiter, n)
    requires CallerAt(s, s.couriers[courier].waiter, Waiting)
    ensures var id := s.couriers[courier].waiter;
            var s' := Step(Step(Step(Step(s, Deliver(courier)), Receive(id)), Leave(id)), Drain(id));
            s'.returned == s.returned + multiset{n} && s'.released == s.released && CallerAt(s', id, Gone)
  {
    hide Inv;
    var id := s.couriers[courier].waiter;
    DeliveryReachesWaiterExactlyWhen(s, courier);
    var s1 := Step(s, Deliver(courier));
    var s2 := Step(s1, Receive(id));
    assert CallerAt(s2, id, Leaving(s.couriers[courier].outcome)) && s2.waiters[id].slot.None?;
    var s3 := Step(s2, Leave(id));
    assert CallerAt(s3, id, Draining(s.couriers[courier].outcome)) && s3.waiters[id].slot.None?;
  }

  /** A caller that stops waiting, because its request could not be sent or its context ended, returns nothing; what had
      reached its slot by then is released. */
  lemma StoppedCallerReturnsNothing(s: State, a: Action, id: WaiterId)
    requires Inv(s) && StopsWaiting(a, id) && CallerAt(s, id, if a.GiveUp? then Waiting else Sending)
    ensures var s' := Step(Step(Step(s, a), Leave(id)), Drain(id));
            && CallerAt(s', id, Gone) && s'.waiters[id].cancelled && s'.returned == s.returned
            && s'.released == s.released + SlotNumbers(s.waiters[id].slot)
  {
    hide Inv;
    var s1 := Step(s, a);
    assert CallerAt(s1, id, Leaving(Failure)) && s1.waiters[id].slot == s.waiters[id].slot;
    var s2 := Step(s1, Leave(id));
    assert CallerAt(s2, id, Draining(Failure)) && s2.waiters[id].slot == s.waiters[id].slot;
  }

  // ---- The client object ---------------------------------------------------------------------

  lemma RunGrows(s: State, actions: seq<Action>, a: Action)
    ensures Run(s, actions + [a]) == Step(Run(s, actions), a)
  {
    hide Step;
    assert (actions + [a])[..|actions|] == actions;
  }

  lemma NoSteps(s: State)
    ensures Run(s, []) == s
  {
  }

  class LeaseClient {
    var registry: map<Nonce, WaiterId>
    var waiters: map<WaiterId, Waiter>
    // What is known outside the client's own fields.
    ghost var couriers: map<CourierId, Courier>
    ghost var built: set<nat>
    ghost var returned: multiset<nat>
    ghost var released: multiset<nat>

    ghost function View(): State
      reads this
    {
      State(registry, waiters, couriers, built, returned, released)
    }

    constructor ()
      ensures View() == Idle() && Inv(View())
    {
      registry, waiters, couriers, built, returned, released := map[], map[], map[], {}, multiset{}, multiset{};
      new;
      IdleInv();
    }

    method Register(id: WaiterId, nonce: Nonce, request: Request) returns (ok: bool)
      requires Inv(View()) && id !in waiters
      modifies this
      ensures View() == Step(old(View()), Call(id, nonce, request)) && Inv(View()) && ok == (nonce !in old(registry))
    {
      hide Inv;
      StepKeepsInv(View(), Call(id, nonce, request));
      ok := nonce !in registry;
      if ok {
        registry := registry[nonce := id];
        waiters := waiters[id := Waiter(nonce, request, None, false, Sending)];
      }
    }

    /** Takes the waiter a response is for out of the registry and makes its result. */
    method HandleResponse(nonce: Nonce, request: Request, valid: bool, number: nat, ghost courier: CourierId)
      returns (result: Option<(WaiterId, Outcome)>)
      requires Inv(View()) && courier !in couriers && number !in built
      modifies this
      ensures View() == Step(old(View()), Respond(nonce, request, valid, courier, number)) && Inv(View())
      ensures result.Some? <==> nonce in old(registry)
      ensures result.Some? ==> courier in couriers && couriers[courier] == Courier(result.value.0, result.value.1)
    {
      hide LeaseInv, AnswerInv;
      StepKeepsInv(View(), Respond(nonce, request, valid, courier, number));
      if nonce !in registry { return None; }
      var id := registry[nonce];
      registry := registry - {nonce};
      var fits := valid && request == waiters[id].request;
      var outcome := if fits then Lease(number, request) else Failure;
      couriers := couriers[courier := Courier(id, outcome)];
      built := if fits then built + {number} else built;
      result := Some((id, outcome));
    }

    method DeliverResult(id: WaiterId, outcome: Outcome, ghost courier: CourierId)
      requires Inv(View()) && courier in couriers && couriers[courier] == Courier(id, outcome)
      modifies this
      ensures View() == Step(old(View()), Deliver(courier)) && Inv(View())
    {
      hide LeaseInv, AnswerInv;
      StepKeepsInv(View(), Deliver(courier));
      SlotIsNeverFull(View(), courier);
      couriers := couriers - {courier};
      var waiter := waiters[id];
      if waiter.cancelled || waiter.slot.Some? {
        released := released + Numbers(outcome);
      } else {
        waiters := waiters[id := waiter.(slot := Some(outcome))];
      }
    }

    /** What a caller does on its way out, whatever it is about to return: first it leaves the registry. */
    method LeaveRegistry(id: WaiterId)
      requires Inv(View()) && id in waiters && waiters[id].caller.Leaving?
      modifies this
      ensures View() == Step(old(View()), Leave(id)) && Inv(View())
    {
      hide Inv;
      StepKeepsInv(View(), Leave(id));
      var waiter := waiters[id];
      if waiter.nonce in registry && registry[waiter.nonce] == id { registry := registry - {waiter.nonce}; }
      waiters := waiters[id := waiter.(caller := Draining(waiter.caller.outcome))];
    }

    /** Then it cancels the waiter and empties the slot. */
    method EmptySlot(id: WaiterId)
      requires Inv(View()) && id in waiters && waiters[id].caller.Draining?
      modifies this
      ensures View() == Step(old(View()), Drain(id)) && Inv(View())
    {
      hide Inv;
      StepKeepsInv(View(), Drain(id));
      var waiter := waiters[id];
      returned := returned + Numbers(waiter.caller.outcome);
      released := released + SlotNumbers(waiter.slot);
      waiters := waiters[id := waiter.(slot := None, cancelled := true, caller := Gone)];
    }

    method TakeWaiter(nonce: Nonce, ghost courier: CourierId) returns (id: WaiterId)
      requires Inv(View()) && nonce in registry && courier !in couriers
      modifies this
      ensures View() == Step(old(View()), Fail(nonce, courier)) && Inv(View())
      ensures id == old(registry)[nonce] && registry == old(registry) - {nonce}
      ensures couriers == old(couriers)[courier := Courier(id, Failure)]
    {
      hide Inv;
      StepKeepsInv(View(), Fail(nonce, courier));
      id := registry[nonce];
      registry := registry - {nonce};
      couriers := couriers[courier := Courier(id, Failure)];
    }

    /** The loss of the session: every registered waiter is taken out, and a failure sets out for each. */
    method FailWaiters(ghost next: CourierId) returns (taken: seq<WaiterId>, ghost nonces: seq<Nonce>)
      requires Inv(View()) && forall c :: c in couriers ==> c < next
      modifies this
      ensures Inv(View()) && View() == Run(old(View()), Failures(nonces, next)) && registry == map[]
      ensures TakenOut(old(registry), map[], nonces, taken) && SetOut(couriers, taken, next)
    {
      hide Inv, Step, Run, TakenOut, SetOut, Failures;
      taken, nonces := [], [];
      ghost var s := View();
      NoSteps(s);
      NothingTaken(registry, couriers, next);
      while registry != map[]
        invariant Inv(View()) && View() == Run(s, Failures(nonces, next)) && |taken| == |nonces|
        invariant forall c :: c in couriers ==> c < next + |taken|
        invariant TakenOut(s.registry, registry, nonces, taken) && SetOut(couriers, taken, next)
        decreases |registry|
      {
        var nonce :| nonce in registry;
        ghost var courier := next + |taken|;
        OneFewer(registry, nonce);
        FailuresGrow(nonces, nonce, next);
        RunGrows(s, Failures(nonces, next), Fail(nonce, courier));
        OneMoreTaken(s.registry, registry, nonces, taken, nonce);
        OneMoreSetsOut(couriers, taken, next, registry[nonce]);
        var id := TakeWaiter(nonce, courier);
        taken, nonces := taken + [id], nonces + [nonce];
      }
    }
  }

  lemma OneFewer(registry: map<Nonce, WaiterId>, nonce: Nonce)
    requires nonce in registry
    ensures |registry - {nonce}| < |registry|
  {
    assert (registry - {nonce}).Keys == registry.Keys - {nonce};
  }

  /** A failure for each of these waiters, one after the other. */
  ghost function Failures(nonces: seq<Nonce>, next: CourierId): seq<Action> {
    if nonces == [] then []
    else Failures(nonces[..|nonces| - 1], next) + [Fail(nonces[|nonces| - 1], next + |nonces| - 1)]
  }

  lemma FailuresGrow(nonces: seq<Nonce>, nonce: Nonce, next: CourierId)
    ensures Failures(nonces + [nonce], next) == Failures(nonces, next) + [Fail(nonce, next + |nonces|)]
  {
    assert (nonces + [nonce])[..|nonces|] == nonces;
  }

  /** The waiters under these nonces, each once, are what `rest` lacks of the registry. */
  ghost predicate TakenOut(registry: map<Nonce, WaiterId>, rest: map<Nonce, WaiterId>, nonces: seq<Nonce>,
                           taken: seq<WaiterId>) {
    && |taken| == |nonces|
    && (forall nonce :: nonce in registry <==> nonce in nonces || nonce in rest)
    && (forall nonce :: nonce in rest ==> nonce in registry && rest[nonce] == registry[nonce] && nonce !in nonces)
    && (forall i, j :: 0 <= i < j < |nonces| ==> nonces[i] != nonces[j])
    && (forall i :: 0 <= i < |nonces| ==> nonces[i] in registry && taken[i] == registry[nonces[i]])
  }

  /** A failure is on its way to each of these waiters. */
  ghost predicate SetOut(couriers: map<CourierId, Courier>, taken: seq<WaiterId>, next: CourierId) {
    forall c :: next <= c < next + |taken| ==> c in couriers && couriers[c] == Courier(taken[c - next], Failure)
  }

  lemma NothingTaken(registry: map<Nonce, WaiterId>, couriers: map<CourierId, Courier>, next: CourierId)
    ensures TakenOut(registry, registry, [], []) && SetOut(couriers, [], next) && Failures([], next) == []
  {
  }

  lemma OneMoreTaken(registry: map<Nonce, WaiterId>, rest: map<Nonce, WaiterId>, nonces: seq<Nonce>,
                     taken: seq<WaiterId>,
                     nonce: Nonce)
    requires TakenOut(registry, rest, nonces, taken) && nonce in rest
    ensures TakenOut(registry, rest - {nonce}, nonces + [nonce], taken + [rest[nonce]])
  {
    var nonces' := nonces + [nonce];
    assert forall n :: n in nonces' <==> n in nonces || n == nonce;
  }

  lemma OneMoreSetsOut(couriers: map<CourierId, Courier>, taken: seq<WaiterId>, next: CourierId, id: WaiterId)
    requires SetOut(couriers, taken, next)
    ensures SetOut(couriers[next + |taken| := Courier(id, Failure)], taken + [id], next)
  {
  }
}
