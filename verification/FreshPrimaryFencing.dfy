/**
  What a fenced run can still do. A stored terminal stops every further record, but not an effect whose dispatch
  phase the run already knows to be durable, or is about to hear is.
 */
module FreshPrimaryFencing {
  import opened Options
  import opened FreshPrimaryJournal
  import opened FreshPrimaryController
  import opened FreshPrimaryProtocol
  import opened FreshPrimarySafety
  import opened FreshPrimaryTheorems
  import opened FreshPrimaryLag
  import opened FreshPrimaryProgress

  function EffectAt(ip: nat): Option<Effect> {
    if ip < |BOOTSTRAP| && BOOTSTRAP[ip].Perform? then Some(BOOTSTRAP[ip].effect) else None
  }

  /**
    The one effect a run can cause without another write: it stands right before it, or it waits for the answer to
    the transition that announces it, which was applied and whose acknowledgement is not yet lost.
   */
  function Armed(w: World, p: nat): Option<Effect>
    requires p in w.runs
  {
    match w.runs[p].pc
    case Dispatching(v) => EffectAt(v.ip)
    case Recording(v, t, lost) =>
      if !lost && Message(p, AppendTransition(w.runs[p].command, t)) in w.applied then EffectAt(v.ip + 1) else None
    case _ => None
  }

  ghost predicate Terminated(w: World, key: Digest) {
    key in w.table && w.table[key].state == Some(St(TERMINAL))
  }

  lemma TerminatedIsClosed(w: World, key: Digest)
    requires Inv(w) && Terminated(w, key)
    ensures ItemOk(w.table[key], key) && Decode(w.table[key]).closing.Some?
  {
    hide RunOk, MessageOk, EffectOk;
    DecodeOk(w.table[key], key);
  }

  /** Nothing lands on a terminated item. */
  lemma NothingLands(w: World, m: Message)
    requires Inv(w) && m in w.sent && Terminated(w, KeyOf(m.write))
    ensures !Condition(m.write, At(w.table, KeyOf(m.write)))
  {
    TerminatedIsClosed(w, KeyOf(m.write));
  }

  /** An effect is followed by the announcement of what it did, and a dispatch begins with an announcement. */
  lemma EffectsAreApart(ip: nat)
    ensures EffectAt(ip).Some? ==> EffectAt(ip + 1).None?
    ensures EffectAt(0).None?
  {
  }

  /** A message of a transition that a dispatching run has yet to send was never applied. */
  lemma NextIsUnapplied(w: World, p: nat, t: Record)
    requires Inv(w) && p in w.runs && w.runs[p].pc.Dispatching? && t.Transition?
    requires t.sequence == w.runs[p].pc.view.sequence
    ensures Message(p, AppendTransition(w.runs[p].command, t)) !in w.applied
  {
    InvAt(w, p);
    var m := Message(p, AppendTransition(w.runs[p].command, t));
    if m in w.applied {
      SentInv(w, m);
    }
  }

  /** No transition can be read back from a terminated item. */
  lemma NotReadBack(w: World, p: nat)
    requires Inv(w) && p in w.runs && w.runs[p].pc.Recording?
    requires Terminated(w, w.runs[p].command.globalKeySha256)
    ensures !AcceptedBy(Decode(w.table[w.runs[p].command.globalKeySha256]), Pending(w.runs[p]).value)
  {
    hide RunOk, MessageOk, EffectOk;
    var key := w.runs[p].command.globalKeySha256;
    TerminatedIsClosed(w, key);
    var j := Decode(w.table[key]);
    DecodeOk(w.table[key], key);
    assert LastReceipt(j) == Sha256(j.closing.value.terminal);
  }

  /** A step after which a run has caused at most the effect it was armed with, and is armed with nothing new. */
  ghost predicate Disarms(w: World, w': World, p: nat) {
    && p in w.runs && p in w'.runs && w'.runs[p].command == w.runs[p].command
    && (forall ef :: Happening(p, ef) in w'.effects && Happening(p, ef) !in w.effects ==>
          Armed(w, p) == Some(ef) && Armed(w', p).None?)
    && (Armed(w', p).Some? ==> Armed(w', p) == Armed(w, p))
  }

  /** A delivery moves no run; to a terminated item it applies nothing either. */
  lemma LandingDisarms(w: World, m: Message, p: nat)
    requires Inv(w) && m in w.sent && p in w.runs && Terminated(w, w.runs[p].command.globalKeySha256)
    ensures Disarms(w, Step(w, Land(m)), p)
  {
    hide Condition, Updated, BOOTSTRAP, RunOk, MessageOk, EffectOk, ItemOk, Contains;
    if m.run == p {
      SentCommand(w, m);
      NothingLands(w, m);
      assert Step(w, Land(m)) == w;
    } else {
      var w' := Step(w, Land(m));
      assert w'.runs == w.runs && w'.effects == w.effects && w'.applied <= w.applied + {m};
    }
  }

  lemma SentCommand(w: World, m: Message)
    requires Inv(w) && m in w.sent
    ensures m.run in w.runs && KeyOf(m.write) == w.runs[m.run].command.globalKeySha256
  {
    SentInv(w, m);
  }

  /** A run armed with nothing, whatever was applied. */
  predicate Unarmed(r: Run) {
    match r.pc
    case Dispatching(v) => EffectAt(v.ip).None?
    case Recording(_, _, lost) => lost
    case _ => true
  }

  /** A step of a run that causes nothing and leaves it armed with nothing. */
  ghost predicate Quiet(w: World, w': World, p: nat) {
    && p in w.runs && p in w'.runs && w'.runs[p].command == w.runs[p].command && w'.effects == w.effects
    && Unarmed(w'.runs[p])
  }

  lemma QuietDisarms(w: World, w': World, p: nat)
    requires Quiet(w, w', p)
    ensures Disarms(w, w', p)
  {
    hide EffectAt;
  }

  lemma ReadIsQuiet(w: World, p: nat, ok: bool)
    requires p in w.runs
    ensures Quiet(w, StepRead(w, p, ok), p)
  {
    hide Acceptable, ValidCommand;
  }

  lemma ConcludingIsQuiet(w: World, p: nat, cl: Closing, recovering: bool)
    requires p in w.runs
    ensures Quiet(w, Conclude(w, p, cl, recovering), p)
  {
  }

  lemma RecoveryIsQuiet(w: World, p: nat, now: int)
    requires p in w.runs && w.runs[p].pc.Occupied?
    ensures Quiet(w, StepRecover(w, p, now), p)
  {
    hide Recoverable, RecordSummaryFits, DispatchReceiptValid, Tail, ClosingFor;
  }

  lemma GivingUpIsQuiet(w: World, p: nat, now: int)
    requires p in w.runs && Pending(w.runs[p]).Some?
    ensures Quiet(w, GiveUp(w, p, now), p)
  {
    hide FailureClosing;
  }

  lemma ProceedingIsQuiet(w: World, p: nat)
    requires p in w.runs && Pending(w.runs[p]).Some? && !w.runs[p].pc.Recording?
    ensures Quiet(w, Proceed(w, p), p)
  {
    EffectsAreApart(0);
    hide BOOTSTRAP, EffectAt;
  }

  lemma ReturnIsQuiet(w: World, p: nat, receipt: Record, now: int)
    requires p in w.runs && w.runs[p].pc.Dispatching?
    ensures Quiet(w, StepReturn(w, p, receipt, now), p)
  {
    hide DispatchReceiptValid, ClosingFor, FailureClosing;
  }

  lemma AuthenticationIsQuiet(w: World, p: nat, authentication: nat, now: int)
    requires Enabled(w, Authenticate(p, authentication, now))
    ensures Quiet(w, Step(w, Authenticate(p, authentication, now)), p)
  {
  }

  /** The answer to a transition hands the arming on: what was waited for now stands next. */
  lemma AnswerDisarms(w: World, p: nat)
    requires Enabled(w, Acknowledge(p)) && w.runs[p].pc.Recording?
    ensures Disarms(w, Proceed(w, p), p)
  {
    hide BOOTSTRAP, EffectAt;
  }

  lemma ReadBackIsQuiet(w: World, p: nat, ok: bool, now: int)
    requires Inv(w) && Enabled(w, ReadBack(p, ok, now))
    requires w.runs[p].pc.Recording? ==> Terminated(w, w.runs[p].command.globalKeySha256)
    ensures Quiet(w, StepReadBack(w, p, ok, now), p)
  {
    hide Inv, Acceptable, AcceptedBy, Terminated, Quiet, Proceed, GiveUp;
    if w.runs[p].pc.Recording? {
      NotReadBack(w, p);
    } else {
      ProceedingIsQuiet(w, p);
    }
    GivingUpIsQuiet(w, p, now);
  }

  /** An effect leaves the run before an announcement, and an announcement just sent has not been applied. */
  lemma AdvanceDisarms(w: World, p: nat, payload: nat)
    requires Inv(w) && Enabled(w, Advance(p, payload))
    ensures Disarms(w, StepAdvance(w, p, payload), p)
  {
    hide Inv, BOOTSTRAP;
    var v := w.runs[p].pc.view;
    if BOOTSTRAP[v.ip].Emit? {
      EmissionDisarms(w, p, payload);
    } else {
      EffectsAreApart(v.ip);
      hide EXPECTED_BOOTSTRAP_PHASES, EXPECTED_MUTATION_DISPATCH;
    }
  }

  lemma EmissionDisarms(w: World, p: nat, payload: nat)
    requires Inv(w) && Enabled(w, Advance(p, payload)) && BOOTSTRAP[w.runs[p].pc.view.ip].Emit?
    ensures Disarms(w, StepAdvance(w, p, payload), p)
  {
    hide Inv, BOOTSTRAP, RunOk, JournalOk, StepAdvance;
    InvAt(w, p);
    var r := w.runs[p];
    var op := BOOTSTRAP[r.pc.view.ip];
    EmittingOk(r, JournalAt(w, r.command.globalKeySha256), payload);
    EmitUnfolds(w, p, payload);
    NextIsUnapplied(w, p, TransitionFor(r.command, r.pc.view, op.phase, op.mutationDispatched, payload));
  }

  /** An event of another run. */
  lemma OthersStandStill(w: World, e: Event, p: nat)
    requires Enabled(w, e) && p in w.runs && !e.Land? && e.p != p
    ensures var w' := Step(w, e);
      && p in w'.runs && w'.runs[p] == w.runs[p] && w'.applied == w.applied
      && forall ef :: Happening(p, ef) in w'.effects <==> Happening(p, ef) in w.effects
  {
    hide Condition, Updated, Recoverable, Acceptable, BOOTSTRAP, DispatchReceiptValid, RecordSummaryFits, ClosingFor,
      FailureClosing, AcceptedBy, Tail, ValidCommand, EXPECTED_BOOTSTRAP_PHASES, EXPECTED_MUTATION_DISPATCH;
  }

  lemma OtherDisarms(w: World, e: Event, p: nat)
    requires Enabled(w, e) && p in w.runs && !e.Land? && e.p != p
    ensures Disarms(w, Step(w, e), p)
  {
    hide Enabled, Step, EffectAt;
    OthersStandStill(w, e, p);
  }

  /** After the terminal, an event of a run causes at most the effect the run was armed with, and rearms nothing. */
  lemma OwnDisarms(w: World, e: Event)
    requires Inv(w) && Enabled(w, e) && !e.Land? && e.p in w.runs
    requires Terminated(w, w.runs[e.p].command.globalKeySha256)
    ensures Disarms(w, Step(w, e), e.p)
  {
    hide Inv, Disarms, Quiet, Terminated, StepRead, StepRecover, StepReadBack, StepReturn, StepAdvance, Abandon,
      Proceed, ValidCommand, BOOTSTRAP, BindingOf;
    match e {
      case ReadStrong(p, ok) => ReadIsQuiet(w, p, ok);
      case Authenticate(p, a, now) => AuthenticationIsQuiet(w, p, a, now);
      case AuthenticateRecovery(p, now) => RecoveryIsQuiet(w, p, now);
      case Acknowledge(p) =>
        if w.runs[p].pc.Recording? {
          AnswerDisarms(w, p);
        } else {
          ProceedingIsQuiet(w, p);
        }
      case CallFails(p) => LossIsQuiet(w, p);
      case ReadBack(p, ok, now) => ReadBackIsQuiet(w, p, ok, now);
      case Advance(p, payload) => AdvanceDisarms(w, p, payload);
      case DispatchThrows(p, cause, now) => ThrowingIsQuiet(w, p, cause, now);
      case DispatchReturns(p, receipt, now) => ReturnIsQuiet(w, p, receipt, now);
      case Stop(p) => StoppingIsQuiet(w, p);
    }
    if Quiet(w, Step(w, e), e.p) {
      QuietDisarms(w, Step(w, e), e.p);
    }
  }

  lemma LossIsQuiet(w: World, p: nat)
    requires p in w.runs && Pending(w.runs[p]).Some?
    ensures Quiet(w, Become(w, p, WithLost(w.runs[p])), p)
  {
  }

  lemma ThrowingIsQuiet(w: World, p: nat, v: nat, now: int)
    requires p in w.runs && w.runs[p].pc.Dispatching?
    ensures Quiet(w, Abandon(w, p, w.runs[p].pc.view, v, now), p)
  {
    hide FailureClosing;
  }

  lemma StoppingIsQuiet(w: World, p: nat)
    requires p in w.runs
    ensures Quiet(w, Become(w, p, Fail(w.runs[p])), p)
  {
  }

  lemma EventDisarms(w: World, e: Event, p: nat)
    requires Inv(w) && Enabled(w, e) && p in w.runs && Terminated(w, w.runs[p].command.globalKeySha256)
    ensures Disarms(w, Step(w, e), p)
  {
    hide Inv, Disarms, Step, Terminated;
    if e.Land? {
      LandEnabled(w, e);
      LandingDisarms(w, e.message, p);
    } else if e.p != p {
      OtherDisarms(w, e, p);
    } else {
      OwnDisarms(w, e);
    }
  }

  lemma StaysTerminated(w: World, e: Event, key: Digest)
    requires Inv(w) && Enabled(w, e) && Terminated(w, key)
    ensures Terminated(Step(w, e), key)
  {
    if e.Land? {
      LandEnabled(w, e);
      if KeyOf(e.message.write) == key {
        NothingLands(w, e.message);
      }
    } else {
      OnlyLandingMovesTheTable(w, e);
    }
    hide Inv, Condition, Updated;
  }

  lemma {:induction false} RunsDisarm(w: World, events: seq<Event>, p: nat)
    requires Inv(w) && Feasible(w, events) && p in w.runs && Terminated(w, w.runs[p].command.globalKeySha256)
    ensures Disarms(w, After(w, events), p)
    decreases |events|
  {
    hide Inv, Step, Enabled, Armed, Terminated;
    if events != [] {
      var w1 := Step(w, events[0]);
      EventDisarms(w, events[0], p);
      EventKeepsInv(w, events[0]);
      StaysTerminated(w, events[0], w.runs[p].command.globalKeySha256);
      RunsDisarm(w1, events[1..], p);
    }
  }

  // ----- Exactly which effects a fenced run can still cause ------------------------------------

  /** What a run is armed with is announced: by the phase it last knew durable, or by the one it has in flight. */
  lemma ArmedIsAnnounced(w: World, p: nat)
    requires Reachable(w) && p in w.runs && Armed(w, p).Some?
    ensures w.runs[p].command.globalKeySha256 in w.table
    ensures var j := Decode(w.table[w.runs[p].command.globalKeySha256]); var pc := w.runs[p].pc;
      && (pc.Dispatching? || pc.Recording?)
      && var last := if pc.Dispatching? then pc.view.sequence - 1 else pc.view.sequence;
         && 0 <= last < |j.transitions|
         && j.transitions[last].Transition? && j.transitions[last].phase == DispatchPhase(Armed(w, p).value)
         && (pc.Recording? ==> j.transitions[last] == pc.transition)
  {
    hide Reachable, Inv, BOOTSTRAP, RunOk, JournalOk, Armed, EffectAt, TableOk, Contains;
    ReachableInv(w);
    InvAt(w, p);
    ArmedCases(w, p);
    var r := w.runs[p];
    var o := JournalAt(w, r.command.globalKeySha256);
    if r.pc.Dispatching? {
      StandingIsAnnounced(r, o);
    } else {
      AppliedIsDurable(w, p);
      AwaitedIsAnnounced(r, o);
    }
  }

  lemma ArmedCases(w: World, p: nat)
    requires p in w.runs && Armed(w, p).Some?
    ensures var pc := w.runs[p].pc;
      || (pc.Dispatching? && EffectAt(pc.view.ip) == Armed(w, p))
      || (pc.Recording? && Enabled(w, Acknowledge(p)) && EffectAt(pc.view.ip + 1) == Armed(w, p))
  {
    hide EffectAt;
  }

  lemma StandingIsAnnounced(r: Run, o: Option<Journal>)
    requires RunOk(r, o) && r.pc.Dispatching? && EffectAt(r.pc.view.ip).Some?
    requires o.Some? ==> JournalOk(o.value, r.command.globalKeySha256)
    ensures o.Some? && 0 < r.pc.view.sequence <= |o.value.transitions|
    ensures var t := o.value.transitions[r.pc.view.sequence - 1];
      t.Transition? && t.phase == DispatchPhase(EffectAt(r.pc.view.ip).value)
  {
    var v := r.pc.view;
    BootstrapFollowsTable(v.ip);
    hide BOOTSTRAP, Chained, ClosingSound;
    assert OnTable(o.value.transitions[v.sequence - 1], v.sequence - 1);
  }

  lemma AwaitedIsAnnounced(r: Run, o: Option<Journal>)
    requires RunOk(r, o) && r.pc.Recording? && EffectAt(r.pc.view.ip + 1).Some?
    requires o.Some? && Contains(o.value, Pending(r).value)
    ensures r.pc.view.sequence < |o.value.transitions|
    ensures var t := o.value.transitions[r.pc.view.sequence];
      t == r.pc.transition && t.Transition? && t.phase == DispatchPhase(EffectAt(r.pc.view.ip + 1).value)
  {
    var v := r.pc.view;
    BootstrapFollowsTable(v.ip + 1);
    assert Emitted(v.ip + 1) == Emitted(v.ip) + 1;
  }

  /** A run that stands before an effect can cause it. */
  lemma StandingActs(w0: World, w: World, p: nat, e: Effect) returns (w': World)
    requires Leads(w0, w) && p in w.runs && w.runs[p].pc.Dispatching? && EffectAt(w.runs[p].pc.view.ip) == Some(e)
    ensures Leads(w0, w') && Happening(p, e) in w'.effects && w'.table == w.table
  {
    hide Leads;
    LeadsOn(w0, w, Advance(p, 0));
    w' := Step(w, Advance(p, 0));
  }

  /** A run that is armed can act, terminal or not. */
  lemma ArmedActs(w: World, p: nat, e: Effect) returns (w': World)
    requires p in w.runs && Armed(w, p) == Some(e)
    ensures Leads(w, w') && Happening(p, e) in w'.effects && w'.table == w.table
  {
    hide Leads, EffectAt;
    LeadsNowhere(w);
    w' := w;
    if w.runs[p].pc.Recording? {
      LeadsOn(w, w, Acknowledge(p));
      w' := Step(w, Acknowledge(p));
    }
    w' := StandingActs(w, w', p, e);
  }

  /** Once a terminal is stored, a run can cause an effect it has not caused exactly if it is armed with it. */
  lemma FencedRunActsIffArmed(w: World, p: nat, e: Effect)
    requires Reachable(w) && p in w.runs && Terminated(w, w.runs[p].command.globalKeySha256)
    requires Happening(p, e) !in w.effects
    ensures (exists w' :: Leads(w, w') && Happening(p, e) in w'.effects) <==> Armed(w, p) == Some(e)
  {
    hide Reachable, Inv, Terminated, Armed, Feasible, After;
    ReachableInv(w);
    if Armed(w, p) == Some(e) {
      var w' := ArmedActs(w, p, e);
    }
    forall w' | Leads(w, w') && Happening(p, e) in w'.effects ensures Armed(w, p) == Some(e) {
      var events :| Feasible(w, events) && After(w, events) == w';
      RunsDisarm(w, events, p);
    }
  }

  /** And it causes at most that one, whatever follows. */
  lemma FencedRunActsAtMostOnce(w: World, events: seq<Event>, p: nat, e: Effect, f: Effect)
    requires Reachable(w) && p in w.runs && Terminated(w, w.runs[p].command.globalKeySha256)
    requires Feasible(w, events) && {Happening(p, e), Happening(p, f)} <= After(w, events).effects - w.effects
    ensures e == f && Armed(w, p) == Some(e)
    ensures p in After(w, events).runs && Armed(After(w, events), p).None?
  {
    hide Reachable, Inv, Terminated, Armed, Feasible, After;
    ReachableInv(w);
    RunsDisarm(w, events, p);
    assert Happening(p, e) in After(w, events).effects - w.effects;
    assert Happening(p, f) in After(w, events).effects - w.effects;
  }

  // ----- The run that shows it -----------------------------------------------------------------

  lemma ReachableOn(w: World, w': World)
    requires Reachable(w) && Leads(w, w')
    ensures Reachable(w')
  {
    hide Enabled, Step, Init;
    var start, before :| Init(start) && Feasible(start, before) && After(start, before) == w;
    var events :| Feasible(w, events) && After(w, events) == w';
    AfterConcat(start, before, events);
  }

  lemma {:induction false} AfterConcat(w: World, before: seq<Event>, events: seq<Event>)
    requires Feasible(w, before) && Feasible(After(w, before), events)
    ensures Feasible(w, before + events) && After(w, before + events) == After(After(w, before), events)
    decreases |before|
  {
    hide Enabled, Step;
    if before == [] {
      assert before + events == events;
    } else {
      assert (before + events)[1..] == before[1..] + events;
      AfterConcat(Step(w, before[0]), before[1..], events);
    }
  }

  /** A second run of the command finds the open journal and sends its ambiguous terminal. */
  function RecoveryClosing(c: Command, j: Journal, now: int): Closing {
    var n := |j.transitions|;
    ClosingFor(c, Ambiguous, now, true, FailedReceipt(1, Tail(j, n), n), Tail(j, n), n)
  }

  function Recovering(r: Run, j: Journal, now: int): Run {
    r.(pc := Concluding(RecoveryClosing(r.command, j, now), true, false))
  }

  /** The found journal of the run's own command is open and has an intent: the recovering read accepts it. */
  lemma RecoverySends(w: World, q: nat, j: Journal, now: int) returns (w': World)
    requires Reachable(w) && q in w.runs && w.runs[q].pc.Begin? && ValidCommand(w.runs[q].command)
    requires w.runs[q].command.globalKeySha256 in w.table
    requires j == Decode(w.table[w.runs[q].command.globalKeySha256])
    requires j.command == w.runs[q].command && j.intent.Some? && j.closing.None?
    ensures Reachable(w') && w' == Issue(w, q, Recovering(w.runs[q], j, now))
  {
    hide Reachable, Recoverable, RecordSummaryFits, Stores, ValidCommand, FollowsTable, RecoveryClosing;
    var r := w.runs[q];
    var key := r.command.globalKeySha256;
    ReachableItemsAreAccepted(w, key);
    AcceptableIf(w.table[key], j, PartialRequest(r.command));
    hide Acceptable;
    ReachableStep(w, ReadStrong(q, true));
    var found := StoredRecord(j, StateOf(j), VersionOf(j), LastReceipt(j));
    var w1 := Become(w, q, r.(pc := Occupied(found)));
    assert w1 == Step(w, ReadStrong(q, true));
    ReachableStep(w1, AuthenticateRecovery(q, now));
    w' := Step(w1, AuthenticateRecovery(q, now));
    RecoveryUnfolds(w, q, found, now);
  }

  lemma RecoveryUnfolds(w: World, q: nat, found: StoredRecord, now: int)
    requires q in w.runs && found.journal.closing.None?
    requires Recoverable(found.journal, w.runs[q].command) && RecordSummaryFits(found)
    ensures var w1 := Become(w, q, w.runs[q].(pc := Occupied(found)));
      StepRecover(w1, q, now) == Issue(w, q, Recovering(w.runs[q], found.journal, now))
  {
    hide Recoverable, RecordSummaryFits;
    var w1 := Become(w, q, w.runs[q].(pc := Occupied(found)));
    assert w1.runs[q := Recovering(w.runs[q], found.journal, now)] ==
           w.runs[q := Recovering(w.runs[q], found.journal, now)];
  }

  /** The ambiguous terminal of a run that found the journal as another one still knows it lands. */
  lemma RecoveryLands(w: World, p: nat, ip: nat, q: nat, now: int) returns (w': World)
    requires Reachable(w) && Undisturbed(w, p, ip) && q != p && q in w.runs && w.runs[q].pc.Begin?
    requires w.runs[q].command == w.runs[p].command
    ensures Reachable(w') && p in w'.runs && w'.runs[p] == w.runs[p] && w'.effects == w.effects
    ensures Terminated(w', w.runs[p].command.globalKeySha256)
    ensures var o := Decode(w'.table[w.runs[p].command.globalKeySha256]).closing;
      o.Some? && o.value.outcome.Outcome? && o.value.outcome.status.Ambiguous?
  {
    hide Reachable, Inv, Undisturbed, JournalOk, RunOk, RecoveryClosing, Condition, Updated, ValidCommand,
      WellFormed, Previous;
    ReachableInv(w);
    UndisturbedParts(w, p, ip);
    var r := w.runs[p];
    var key := r.command.globalKeySha256;
    var j := Decode(w.table[key]);
    OpenJournal(w, p, ip);
    var w1 := RecoverySends(w, q, j, now);
    ReachableInv(w1);
    var write := Finalize(r.command, RecoveryClosing(r.command, j, now));
    RecoveryIsWellFormed(j, key, now);
    StillUndisturbed(w, p, ip, q, Recovering(w.runs[q], j, now));
    NextWriteLands(w1, p, ip, write);
    ReachableStep(w1, Land(Message(q, write)));
    w' := Step(w1, Land(Message(q, write)));
    ClosingIsStored(write, At(w1.table, key));
    AmbiguousClosing(j, now);
  }

  lemma AmbiguousClosing(j: Journal, now: int)
    ensures var o := RecoveryClosing(j.command, j, now).outcome; o.Outcome? && o.status.Ambiguous?
  {
  }

  lemma ClosingIsStored(write: Write, item: Option<Item>)
    requires write.Finalize? && Condition(write, item)
    ensures Updated(write, item).state == Some(St(TERMINAL))
  {
  }

  lemma StillUndisturbed(w: World, p: nat, ip: nat, q: nat, r: Run)
    requires Undisturbed(w, p, ip) && q != p && q in w.runs && Pending(r).Some?
    ensures Undisturbed(Issue(w, q, r), p, ip)
  {
  }

  lemma OpenJournal(w: World, p: nat, ip: nat)
    requires Inv(w) && Undisturbed(w, p, ip)
    ensures var r := w.runs[p]; var j := Decode(w.table[r.command.globalKeySha256]);
      && j.command == r.command && ValidCommand(r.command) && j.intent.Some? && j.closing.None?
      && JournalOk(j, r.command.globalKeySha256) && r.pc.view.previous == Tail(j, |j.transitions|)
  {
    hide Inv;
    InvAt(w, p);
  }

  lemma RecoveryIsWellFormed(j: Journal, key: Digest, now: int)
    requires JournalOk(j, key) && j.intent.Some?
    ensures var write := Finalize(j.command, RecoveryClosing(j.command, j, now));
      WellFormed(write) && Previous(write) == Tail(j, |j.transitions|)
  {
    TailIsLink(j, |j.transitions|);
    ClosingIsSound(j.command, Ambiguous, now, FailedReceipt(1, Tail(j, |j.transitions|), |j.transitions|),
                   Tail(j, |j.transitions|), |j.transitions|);
  }

  /**
    For every valid command and each of the four effects: a run stands before the effect while another one closes
    the journal as ambiguous, and the effect happens after the terminal was stored.
   */
  lemma FencedRunStillActs(c: Command, e: Effect, a: nat, now: int) returns (w: World, w': World)
    requires ValidCommand(c)
    ensures Reachable(w) && 0 in w.runs && w.runs[0].command == c && Terminated(w, c.globalKeySha256)
    ensures var o := Decode(w.table[c.globalKeySha256]).closing;
      o.Some? && o.value.outcome.Outcome? && o.value.outcome.status.Ambiguous?
    ensures Leads(w, w') && w'.table == w.table && Happening(0, e) !in w.effects && Happening(0, e) in w'.effects
  {
    hide Reachable, Inv, Undisturbed, ValidCommand, Leads, Terminated, PlaceOf;
    var start := Twins(c);
    assert Reachable(start) by { StartIsReachable(c); }
    ReachableInv(start);
    w := Begins(start, 0, a, now);
    w := DispatchRuns(start, w, 0, 0, PlaceOf(e));
    ReachableOn(start, w);
    UndisturbedParts(w, 0, PlaceOf(e));
    w := RecoveryLands(w, 0, PlaceOf(e), 1, now);
    w' := ArmedActs(w, 0, e);
  }

  lemma StartIsReachable(c: Command)
    ensures Reachable(Twins(c))
  {
    assert Feasible(Twins(c), []) && After(Twins(c), []) == Twins(c) && Init(Twins(c));
  }
}
