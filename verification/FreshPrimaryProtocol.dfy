/**
  Any number of controller runs over one table, as a state machine whose events interleave freely.

  Every conditional write is a message: once sent it may be applied at any later moment, even after its
  sender saw an error, crashed or was overtaken. A sender learns of it only by an acknowledgement (the
  message was applied) or by one strongly consistent read back after an error. Nothing is ever resent.
 */
module FreshPrimaryProtocol {
  import opened Options
  import opened FreshPrimaryJournal
  import opened FreshPrimaryController

  // ----- The bootstrap program ----------------------------------------------------------------

  datatype Effect = PutSignerSecret | DiscardAdminCredential | CreateDatabase | BootstrapSecurity

  datatype Op = Emit(phase: Phase, mutationDispatched: bool) | Perform(effect: Effect)

  /** What the dispatched bootstrap does, in order: phases it records and effects it causes. */
  const BOOTSTRAP: seq<Op> := [
    Emit(SignerSecretDispatching, true), Perform(PutSignerSecret), Emit(SignerSecretSealed, true),
    Emit(PreflightStarted, false), Emit(PreflightAccepted, false),
    Emit(AdminCredentialDiscarding, false), Perform(DiscardAdminCredential), Emit(AdminCredentialDiscarded, false),
    Emit(CreateDatabaseDispatching, true), Perform(CreateDatabase), Emit(DatabaseCreated, true),
    Emit(SecurityBootstrapDispatching, true), Perform(BootstrapSecurity), Emit(SecurityBootstrapped, true),
    Emit(PostflightStarted, true), Emit(Accepted, true)]

  /** How many phases the first `ip` operations emit. */
  function Emitted(ip: nat): nat
    requires ip <= |BOOTSTRAP|
  {
    if ip == 0 then 0 else Emitted(ip - 1) + (if BOOTSTRAP[ip - 1].Emit? then 1 else 0)
  }

  /** The phase that must be durable before an effect. */
  function DispatchPhase(e: Effect): Phase {
    match e
    case PutSignerSecret => SignerSecretDispatching
    case DiscardAdminCredential => AdminCredentialDiscarding
    case CreateDatabase => CreateDatabaseDispatching
    case BootstrapSecurity => SecurityBootstrapDispatching
  }

  lemma EmittedSteps()
    ensures Emitted(0) == 0 && Emitted(1) == 1 && Emitted(2) == 1 && Emitted(3) == 2 && Emitted(4) == 3
    ensures Emitted(5) == 4 && Emitted(6) == 5 && Emitted(7) == 5 && Emitted(8) == 6 && Emitted(9) == 7
    ensures Emitted(10) == 7 && Emitted(11) == 8 && Emitted(12) == 9 && Emitted(13) == 9 && Emitted(14) == 10
    ensures Emitted(15) == 11 && Emitted(16) == 12
  {
    assert Emitted(4) == 3;
    assert Emitted(8) == 6;
    assert Emitted(12) == 9;
  }

  /** The bootstrap emits the controller's table, and each effect comes right after its own dispatch phase. */
  lemma BootstrapFollowsTable(ip: nat)
    requires ip < |BOOTSTRAP|
    ensures Emitted(ip + 1) <= 12 == Emitted(|BOOTSTRAP|)
    ensures BOOTSTRAP[ip].Emit? ==>
              && Emitted(ip) < 12
              && BOOTSTRAP[ip].phase == EXPECTED_BOOTSTRAP_PHASES[Emitted(ip)]
              && BOOTSTRAP[ip].mutationDispatched == EXPECTED_MUTATION_DISPATCH[Emitted(ip)]
    ensures BOOTSTRAP[ip].Perform? ==>
              && 0 < Emitted(ip) <= 12
              && EXPECTED_BOOTSTRAP_PHASES[Emitted(ip) - 1] == DispatchPhase(BOOTSTRAP[ip].effect)
  {
    EmittedSteps();
  }

  // ----- Runs ---------------------------------------------------------------------------------

  /** The variables of a run's dispatch: the sequence and receipt it believes come last. */
  datatype View = View(intent: Record, sequence: nat, previous: Digest, possibleMutation: bool, ip: nat)

  datatype Pc =
    | Begin
    | Absent
    | Occupied(found: StoredRecord)
    | Consuming(consumption: Record, authentication: nat, lost: bool)
    | Intending(intent: Record, lost: bool)
    | Dispatching(view: View)
    | Recording(view: View, transition: Record, lost: bool)
    | Concluding(closing: Closing, recovering: bool, lost: bool)
    | Passed(closing: Closing)
    | Rejected

  /**
    `attempt`, `announced`, `consumed`, `dispatched` and `issued` only remember: the consumption and the intent the
    run tried to write, whether it passed consumption, whether it entered dispatch, how many transitions it sent.
   */
  datatype Run = Run(command: Command, attempt: Option<Record>, announced: Option<Record>,
                     consumed: bool, dispatched: bool, issued: nat, pc: Pc)

  datatype Message = Message(run: nat, write: Write)

  datatype Happening = Happening(run: nat, effect: Effect)

  datatype World = World(table: map<Digest, Item>, sent: set<Message>, applied: set<Message>,
                         runs: map<nat, Run>, effects: set<Happening>)

  ghost predicate Init(w: World) {
    && w.table == map[] && w.sent == {} && w.applied == {} && w.effects == {}
    && forall p :: p in w.runs ==> w.runs[p] == Run(w.runs[p].command, None, None, false, false, 0, Begin)
  }

  function KeyOf(w: Write): Digest {
    w.command.globalKeySha256
  }

  function At(table: map<Digest, Item>, key: Digest): Option<Item> {
    if key in table then Some(table[key]) else None
  }

  /** The journal an item stores, when it stores one. */
  ghost function Decode(item: Item): Journal {
    var j :| (exists k :: Encode(k) == item) ==> Encode(j) == item; j
  }

  lemma DecodeEncode(j: Journal)
    ensures Decode(Encode(j)) == j
  {
    EncodeInjective(Decode(Encode(j)), j);
  }

  datatype Event =
    | ReadStrong(p: nat, ok: bool)
    | Authenticate(p: nat, authentication: nat, now: int)
    | AuthenticateRecovery(p: nat, now: int)
    | Land(message: Message)
    | Acknowledge(p: nat)
    | CallFails(p: nat)
    | ReadBack(p: nat, ok: bool, now: int)
    | Advance(p: nat, payload: nat)
    | DispatchThrows(p: nat, cause: nat, now: int)
    | DispatchReturns(p: nat, receipt: Record, now: int)
    | Stop(p: nat)

  /** The write a run waits for. */
  function Pending(r: Run): Option<Write> {
    match r.pc
    case Consuming(c, _, _) => Some(ConsumeOnce(r.command, c))
    case Intending(i, _) => Some(AppendIntent(r.command, i))
    case Recording(_, t, _) => Some(AppendTransition(r.command, t))
    case Concluding(cl, _, _) => Some(Finalize(r.command, cl))
    case _ => None
  }

  predicate Lost(r: Run)
    requires Pending(r).Some?
  {
    match r.pc
    case Consuming(_, _, lost) => lost
    case Intending(_, lost) => lost
    case Recording(_, _, lost) => lost
    case Concluding(_, _, lost) => lost
    case _ => false
  }

  function WithLost(r: Run): Run
    requires Pending(r).Some?
  {
    match r.pc
    case Consuming(c, a, _) => r.(pc := Consuming(c, a, true))
    case Intending(i, _) => r.(pc := Intending(i, true))
    case Recording(v, t, _) => r.(pc := Recording(v, t, true))
    case Concluding(cl, x, _) => r.(pc := Concluding(cl, x, true))
    case _ => r
  }

  function Fail(r: Run): Run {
    r.(pc := Rejected)
  }

  function TerminalFor(c: Command, outcome: Record, previous: Digest, count: nat): Record {
    Terminal(BindingOf(c), previous, Sha256(outcome), count, count + 3)
  }

  function OutcomeFor(c: Command, status: Status, now: int, possibleMutation: bool, receipt: Record): Record {
    Outcome(c.commandSha256, c.globalKeySha256, c.coordinates.operationId, status, now, possibleMutation,
        Sha256(receipt))
  }

  function ClosingFor(c: Command, status: Status, now: int, possibleMutation: bool, receipt: Record,
                      previous: Digest, count: nat): Closing {
    var o := OutcomeFor(c, status, now, possibleMutation, receipt);
    Closing(TerminalFor(c, o, previous, count), o, receipt)
  }

  /** The catch block of the controller: close the journal from the run's own view. */
  function FailureClosing(c: Command, v: View, cause: nat, now: int): Closing {
    ClosingFor(c, if v.possibleMutation then Ambiguous else FailedTerminal, now, v.possibleMutation,
               FailedReceipt(cause, v.previous, v.sequence), v.previous, v.sequence)
  }

  function TransitionFor(c: Command, v: View, phase: Phase, mutation: bool, payload: nat): Record {
    Transition(BindingOf(c), v.previous, v.sequence, v.sequence + 3, phase, mutation, payload)
  }

  /** Send one write and wait for it. */
  function Issue(w: World, p: nat, r: Run): World
    requires Pending(r).Some?
  {
    w.(runs := w.runs[p := r], sent := w.sent + {Message(p, Pending(r).value)})
  }

  function Become(w: World, p: nat, r: Run): World {
    w.(runs := w.runs[p := r])
  }

  /** Send a terminal and wait for it. */
  function Conclude(w: World, p: nat, cl: Closing, recovering: bool): World
    requires p in w.runs
  {
    Issue(w, p, w.runs[p].(pc := Concluding(cl, recovering, false)))
  }

  /** The catch block: send the failure closing computed from the run's own view. */
  function Abandon(w: World, p: nat, v: View, cause: nat, now: int): World
    requires p in w.runs
  {
    Conclude(w, p, FailureClosing(w.runs[p].command, v, cause, now), false)
  }

  /** A run's next state once its write is known to be durable. */
  function Continued(r: Run): Run
    requires Pending(r).Some?
  {
    match r.pc
    case Consuming(c, authentication, _) =>
      var intent := Intent(BindingOf(r.command), Sha256(c), authentication, 2);
      r.(consumed := true, announced := Some(intent), pc := Intending(intent, false))
    case Intending(i, _) =>
      r.(dispatched := true, pc := Dispatching(View(i, 0, Sha256(i), false, 0)))
    case Recording(v, t, _) =>
      r.(pc := Dispatching(v.(sequence := v.sequence + 1, previous := Sha256(t), ip := v.ip + 1)))
    case Concluding(cl, recovering, _) =>
      r.(pc := if !recovering && cl.outcome.Outcome? && cl.outcome.status.Confirmed? then Passed(cl) else Rejected)
    case _ => r
  }

  /** The controller's continuation: after consumption it sends the intent at once. */
  function Proceed(w: World, p: nat): World
    requires p in w.runs && Pending(w.runs[p]).Some?
  {
    var r := Continued(w.runs[p]);
    if Pending(r).Some? then Issue(w, p, r) else Become(w, p, r)
  }

  /** The controller's continuation once a write failed for good: a transition failure reaches the catch block. */
  function GiveUp(w: World, p: nat, now: int): World
    requires p in w.runs && Pending(w.runs[p]).Some?
  {
    var r := w.runs[p];
    match r.pc
    case Recording(v, _, _) => Abandon(w, p, v, 0, now)
    case _ => Become(w, p, Fail(r))
  }

  /** The `accept` tests of the reconciling read. */
  predicate AcceptedBy(j: Journal, w: Write) {
    match w
    case ConsumeOnce(c, consumption) => j.consumption == consumption && j.command.commandSha256 == c.commandSha256
    case AppendIntent(_, i) => j.intent == Some(i)
    case AppendTransition(_, t) =>
      && t.Transition? && 0 <= t.sequence < |j.transitions| && j.transitions[t.sequence] == t
      && LastReceipt(j) == Sha256(t)
    case Finalize(_, cl) => j.closing == Some(cl)
  }

  ghost predicate Enabled(w: World, e: Event) {
    match e
    case Land(m) => m in w.sent
    case ReadStrong(p, _) => p in w.runs && w.runs[p].pc.Begin?
    case Authenticate(p, _, _) => p in w.runs && w.runs[p].pc.Absent?
    case AuthenticateRecovery(p, _) => p in w.runs && w.runs[p].pc.Occupied?
    case Acknowledge(p) =>
      && p in w.runs && Pending(w.runs[p]).Some? && !Lost(w.runs[p])
      && Message(p, Pending(w.runs[p]).value) in w.applied
    case CallFails(p) => p in w.runs && Pending(w.runs[p]).Some? && !Lost(w.runs[p])
    case ReadBack(p, _, _) => p in w.runs && Pending(w.runs[p]).Some? && Lost(w.runs[p])
    case Advance(p, _) => p in w.runs && w.runs[p].pc.Dispatching? && w.runs[p].pc.view.ip < |BOOTSTRAP|
    case DispatchThrows(p, _, _) => p in w.runs && w.runs[p].pc.Dispatching?
    case DispatchReturns(p, _, _) => p in w.runs && w.runs[p].pc.Dispatching? && w.runs[p].pc.view.ip == |BOOTSTRAP|
    case Stop(p) => p in w.runs
  }

  ghost function Step(w: World, e: Event): World
    requires Enabled(w, e)
  {
    match e
    case Land(m) =>
      var key := KeyOf(m.write);
      if Condition(m.write, At(w.table, key)) then
        w.(table := w.table[key := Updated(m.write, At(w.table, key))], applied := w.applied + {m})
      else w
    case ReadStrong(p, ok) => StepRead(w, p, ok)
    case Authenticate(p, authentication, now) =>
      var r := w.runs[p];
      var c := Consumption(BindingOf(r.command), r.command.coordinates.approvalId, now, 1);
      Issue(w, p, r.(attempt := Some(c), pc := Consuming(c, authentication, false)))
    case AuthenticateRecovery(p, now) => StepRecover(w, p, now)
    case Acknowledge(p) => Proceed(w, p)
    case CallFails(p) => Become(w, p, WithLost(w.runs[p]))
    case ReadBack(p, ok, now) => StepReadBack(w, p, ok, now)
    case Advance(p, payload) => StepAdvance(w, p, payload)
    case DispatchThrows(p, cause, now) => Abandon(w, p, w.runs[p].pc.view, cause, now)
    case DispatchReturns(p, receipt, now) => StepReturn(w, p, receipt, now)
    case Stop(p) => Become(w, p, Fail(w.runs[p]))
  }

  /** `validateCommand`, then the strongly consistent read that decides between a fresh and a recovering run. */
  ghost function StepRead(w: World, p: nat, ok: bool): World
    requires p in w.runs
  {
    var r := w.runs[p];
    var key := r.command.globalKeySha256;
    if !ok || !ValidCommand(r.command) then Become(w, p, Fail(r))
    else if key !in w.table then Become(w, p, r.(pc := Absent))
    else if Acceptable(w.table[key], PartialRequest(r.command)) then
      var j := Decode(w.table[key]);
      Become(w, p, r.(pc := Occupied(StoredRecord(j, StateOf(j), VersionOf(j), LastReceipt(j)))))
    else Become(w, p, Fail(r))
  }

  /** A recovering run returns a confirmed result, or closes an open journal as ambiguous. */
  ghost function StepRecover(w: World, p: nat, now: int): World
    requires p in w.runs && w.runs[p].pc.Occupied?
  {
    var r := w.runs[p];
    var j := r.pc.found.journal;
    var n := |j.transitions|;
    if !(Recoverable(j, r.command) && RecordSummaryFits(r.pc.found)) then Become(w, p, Fail(r))
    else if j.closing.Some? then
      var cl := j.closing.value;
      if cl.outcome.status.Confirmed? && DispatchReceiptValid(cl.providerReceipt, r.command, n)
      then Become(w, p, r.(pc := Passed(cl)))
      else Become(w, p, Fail(r))
    else
      Conclude(w, p, ClosingFor(r.command, Ambiguous, now, true, FailedReceipt(1, Tail(j, n), n), Tail(j, n), n), true)
  }

  /** One reconciling read: the write counts as durable only if the item parses and shows it. */
  ghost function StepReadBack(w: World, p: nat, ok: bool, now: int): World
    requires p in w.runs && Pending(w.runs[p]).Some?
  {
    var r := w.runs[p];
    var item := At(w.table, r.command.globalKeySha256);
    if ok && item.Some? && Acceptable(item.value, FullRequest(r.command)) &&
        AcceptedBy(Decode(item.value), Pending(r).value)
    then Proceed(w, p)
    else GiveUp(w, p, now)
  }

  /** Dispatch returned: a valid receipt of a full trace confirms, anything else goes to the catch block. */
  function StepReturn(w: World, p: nat, receipt: Record, now: int): World
    requires p in w.runs && w.runs[p].pc.Dispatching?
  {
    var r := w.runs[p];
    var v := r.pc.view;
    if DispatchReceiptValid(receipt, r.command, v.sequence)
    then Conclude(w, p, ClosingFor(r.command, Confirmed, now, true, receipt, v.previous, v.sequence), false)
    else Abandon(w, p, v, 0, now)
  }

  /** The bootstrap's next operation: a phase goes through the guard of `recordTransition`, an effect just happens. */
  ghost function StepAdvance(w: World, p: nat, payload: nat): World
    requires p in w.runs && w.runs[p].pc.Dispatching? && w.runs[p].pc.view.ip < |BOOTSTRAP|
  {
    var r := w.runs[p];
    var v := r.pc.view;
    match BOOTSTRAP[v.ip]
    case Emit(phase, mutation) =>
      if v.sequence < 12 && phase == EXPECTED_BOOTSTRAP_PHASES[v.sequence] &&
          mutation == EXPECTED_MUTATION_DISPATCH[v.sequence] then
        var v' := v.(possibleMutation := v.possibleMutation || mutation);
        Issue(w, p, r.(issued := v.sequence + 1,
                       pc := Recording(v', TransitionFor(r.command, v, phase, mutation, payload), false)))
      else Abandon(w, p, v, 0, 0)
    case Perform(effect) =>
      w.(runs := w.runs[p := r.(pc := Dispatching(v.(ip := v.ip + 1)))], effects := w.effects + {Happening(p, effect)})
  }
}
