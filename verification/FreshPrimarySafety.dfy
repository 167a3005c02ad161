/**
  What every event keeps, and so what holds in every reachable world, under any interleaving.
 */
module FreshPrimarySafety {
  import opened Options
  import opened FreshPrimaryJournal
  import opened FreshPrimaryController
  import opened FreshPrimaryProtocol

  // ----- The invariant ------------------------------------------------------------------------

  /** What a closing may say about the journal it closes. */
  ghost predicate ClosingSound(cl: Closing, c: Command) {
    && OutcomeValid(cl.outcome, c) && cl.terminal.Terminal?
    && (cl.outcome.status.Confirmed? ==> DispatchReceiptValid(cl.providerReceipt, c, cl.terminal.transitionCount))
    && (cl.outcome.status.FailedTerminal? ==> cl.terminal.transitionCount == 0)
  }

  ghost predicate JournalOk(j: Journal, key: Digest) {
    && ValidCommand(j.command) && j.command.globalKeySha256 == key
    && Chained(j, FullRequest(j.command)) && ConsumptionValid(j.consumption, j.command)
    && FollowsTable(j.transitions)
    && (j.closing.Some? ==> j.intent.Some? && ClosingSound(j.closing.value, j.command))
  }

  ghost predicate ItemOk(item: Item, key: Digest) {
    exists j :: Encode(j) == item && JournalOk(j, key)
  }

  /** The journal stored under a key, if any. */
  ghost function JournalAt(w: World, key: Digest): Option<Journal> {
    if key in w.table then Some(Decode(w.table[key])) else None
  }

  ghost predicate TableOk(w: World) {
    forall key :: key in w.table ==> ItemOk(w.table[key], key)
  }

  /** `j` is an earlier state of `k`. */
  ghost predicate Grows(j: Journal, k: Journal) {
    && j.namespaceArn == k.namespaceArn && j.command == k.command && j.consumption == k.consumption
    && (j.intent.Some? ==> j.intent == k.intent)
    && j.transitions <= k.transitions
    && (j.closing.Some? ==> j == k)
  }

  ghost predicate GrowsOption(o: Option<Journal>, n: Option<Journal>) {
    o.Some? ==> n.Some? && Grows(o.value, n.value)
  }

  /** The write is part of the journal. */
  ghost predicate Contains(j: Journal, w: Write) {
    match w
    case ConsumeOnce(c, consumption) => j.command == c && j.consumption == consumption
    case AppendIntent(_, i) => j.intent == Some(i)
    case AppendTransition(_, t) => t.Transition? && 0 <= t.sequence < |j.transitions| && j.transitions[t.sequence] == t
    case Finalize(_, cl) => j.closing == Some(cl)
  }

  /** A run's view is an exact prefix of the durable chain. */
  ghost predicate ViewOk(r: Run, v: View, o: Option<Journal>) {
    && r.dispatched && o.Some? && o.value.intent == Some(v.intent)
    && v.ip <= |BOOTSTRAP| && v.sequence == Emitted(v.ip)
    && v.sequence <= |o.value.transitions| && v.previous == Tail(o.value, v.sequence)
    && v.possibleMutation == (r.issued > 0)
  }

  ghost predicate RunOk(r: Run, o: Option<Journal>) {
    && (r.dispatched ==> r.consumed) && (r.issued > 0 ==> r.dispatched)
    && (r.consumed ==>
          r.attempt.Some? && o.Some? && o.value.consumption == r.attempt.value && o.value.command == r.command)
    && (r.dispatched ==> r.announced.Some? && o.value.intent == r.announced)
    && (r.attempt.Some? ==> ValidCommand(r.command) && ConsumptionValid(r.attempt.value, r.command))
    && (r.announced.Some? ==> r.consumed)
    && match r.pc
       case Begin => r.attempt.None?
       case Absent => r.attempt.None? && ValidCommand(r.command)
       case Occupied(found) => r.attempt.None? && ValidCommand(r.command) && o.Some? && Grows(found.journal, o.value)
       case Consuming(c, _, _) => !r.consumed && r.attempt == Some(c)
       case Intending(i, _) =>
         r.consumed && !r.dispatched && r.announced == Some(i) && IntentFits(i, r.command, Sha256(r.attempt.value))
       case Dispatching(v) => ViewOk(r, v, o) && r.issued == v.sequence
       case Recording(v, t, _) =>
         && ViewOk(r, v, o) && r.issued == v.sequence + 1 && v.ip < |BOOTSTRAP| && BOOTSTRAP[v.ip].Emit?
         && TransitionFits(t, r.command, v.sequence, v.previous) && OnTable(t, v.sequence)
       case Concluding(cl, recovering, _) =>
         && ValidCommand(r.command) && Concludable(cl, r.command)
         && (recovering ==> r.attempt.None?)
       case Passed(cl) =>
         && ValidCommand(r.command) && o.Some? && o.value.closing == Some(cl)
         && cl.outcome.Outcome? && cl.outcome.status.Confirmed?
       case Rejected => true
  }

  /** The predecessor a write names belongs to the write's own command. */
  ghost predicate SameChain(w: Write)
    requires WellFormed(w) && !w.ConsumeOnce?
  {
    Previous(w).preimage.binding == BindingOf(w.command)
  }

  /** A closing a run may send. */
  ghost predicate Concludable(cl: Closing, c: Command) {
    && ClosingSound(cl, c) && WellFormed(Finalize(c, cl)) && SameChain(Finalize(c, cl))
  }

  ghost predicate MessageOk(m: Message, runs: map<nat, Run>) {
    && m.run in runs && m.write.command == runs[m.run].command && ValidCommand(m.write.command) && WellFormed(m.write)
    && (!m.write.ConsumeOnce? ==> SameChain(m.write))
    && var r := runs[m.run];
       match m.write
       case ConsumeOnce(c, consumption) => r.attempt == Some(consumption) && ConsumptionValid(consumption, c)
       case AppendIntent(c, i) => r.consumed && r.attempt.Some? && i.previous == Sha256(r.attempt.value)
       case AppendTransition(c, t) => r.dispatched && t.sequence < r.issued && OnTable(t, t.sequence)
       case Finalize(c, cl) => ClosingSound(cl, c)
  }

  /** An effect has happened only after the journal showed its dispatch phase. */
  ghost predicate EffectOk(h: Happening, w: World) {
    && h.run in w.runs && w.runs[h.run].dispatched
    && var o := JournalAt(w, w.runs[h.run].command.globalKeySha256);
       && o.Some? && Announced(o.value, h.effect)
  }

  ghost predicate Announced(j: Journal, e: Effect) {
    exists i: nat :: i < |j.transitions| && j.transitions[i].Transition? && j.transitions[i].phase == DispatchPhase(e)
  }

  ghost predicate Inv(w: World) {
    && TableOk(w)
    && (forall p :: p in w.runs ==> RunOk(w.runs[p], JournalAt(w, w.runs[p].command.globalKeySha256)))
    && (forall m :: m in w.sent ==> MessageOk(m, w.runs))
    && (forall m :: m in w.applied ==>
          m in w.sent && JournalAt(w, KeyOf(m.write)).Some? && Contains(JournalAt(w, KeyOf(m.write)).value, m.write))
    && (forall h :: h in w.effects ==> EffectOk(h, w))
  }

  // ----- What survives growth -----------------------------------------------------------------

  lemma DecodeOk(item: Item, key: Digest)
    requires ItemOk(item, key)
    ensures Encode(Decode(item)) == item && JournalOk(Decode(item), key)
  {
    var j :| Encode(j) == item && JournalOk(j, key);
    DecodeEncode(j);
  }

  lemma TailGrows(j: Journal, k: Journal, n: nat)
    requires Grows(j, k) && j.intent.Some? && n <= |j.transitions|
    ensures Tail(j, n) == Tail(k, n)
  {
  }

  lemma GrowsTransitive(j: Journal, k: Journal, l: Journal)
    requires Grows(j, k) && Grows(k, l)
    ensures Grows(j, l)
  {
  }

  lemma RunOkGrows(r: Run, o: Option<Journal>, n: Option<Journal>)
    requires RunOk(r, o) && GrowsOption(o, n)
    ensures RunOk(r, n)
  {
    match r.pc {
      case Occupied(found) => GrowsTransitive(found.journal, o.value, n.value);
      case Dispatching(v) => TailGrows(o.value, n.value, v.sequence);
      case Recording(v, _, _) => TailGrows(o.value, n.value, v.sequence);
      case _ =>
    }
  }

  lemma ContainsGrows(j: Journal, k: Journal, w: Write)
    requires Grows(j, k) && Contains(j, w)
    ensures Contains(k, w)
  {
  }

  lemma AnnouncedGrows(j: Journal, k: Journal, e: Effect)
    requires Grows(j, k) && Announced(j, e)
    ensures Announced(k, e)
  {
    var i: nat :| i < |j.transitions| && j.transitions[i].Transition? && j.transitions[i].phase == DispatchPhase(e);
    assert k.transitions[i] == j.transitions[i];
  }

  // ----- A write lands ------------------------------------------------------------------------

  /** A late or repeated landing extends the journal by exactly its write, or changes nothing. */
  lemma LandingExtends(w: World, m: Message)
    requires Inv(w) && m in w.sent && Condition(m.write, At(w.table, KeyOf(m.write)))
    ensures var key := KeyOf(m.write); var after := Updated(m.write, At(w.table, key));
      && ItemOk(after, key)
      && GrowsOption(JournalAt(w, key), Some(Decode(after)))
      && Contains(Decode(after), m.write)
      && (!m.write.ConsumeOnce? ==> key in w.table && Decode(after) == Extend(Decode(w.table[key]), m.write))
  {
    var key := KeyOf(m.write);
    var r := w.runs[m.run];
    if m.write.ConsumeOnce? {
      var j := Consumed(m.write.command, m.write.consumption);
      DecodeEncode(j);
      assert JournalOk(j, key);
    } else {
      var item := w.table[key];
      DecodeOk(item, key);
      var j := Decode(item);
      LandingOnJournal(w, m, j, r);
      var k := Extend(j, m.write);
      UpdatedEncodesExtension(j, FullRequest(j.command), m.write);
      DecodeEncode(k);
    }
  }

  lemma LandingOnJournal(w: World, m: Message, j: Journal, r: Run)
    requires Inv(w) && m in w.sent && r == w.runs[m.run] && !m.write.ConsumeOnce?
    requires KeyOf(m.write) in w.table && j == Decode(w.table[KeyOf(m.write)])
    requires JournalOk(j, KeyOf(m.write))
    requires Condition(m.write, Some(Encode(j)))
    ensures JournalOk(Extend(j, m.write), KeyOf(m.write))
    ensures Grows(j, Extend(j, m.write)) && Contains(Extend(j, m.write), m.write)
  {
    ConditionIsCompareLastReceipt(j, FullRequest(j.command), m.write);
    SameCommand(j, m.write);
    ExtensionIsChained(j, FullRequest(j.command), m.write);
    ExtensionIsOk(j, m, w.runs);
  }

  lemma ExtensionIsOk(j: Journal, m: Message, runs: map<nat, Run>)
    requires JournalOk(j, KeyOf(m.write)) && MessageOk(m, runs) && !m.write.ConsumeOnce?
    requires Previous(m.write) == LastReceipt(j) && m.write.command == j.command && j.closing.None?
    requires Chained(Extend(j, m.write), FullRequest(j.command))
    requires m.write.AppendTransition? ==> m.write.transition.sequence == |j.transitions|
    requires m.write.AppendIntent? ==> j.intent.None?
    requires m.write.Finalize? ==> j.intent.Some?
    ensures JournalOk(Extend(j, m.write), KeyOf(m.write))
    ensures Grows(j, Extend(j, m.write)) && Contains(Extend(j, m.write), m.write)
  {
  }

  /** Naming a receipt of a journal ties a write to that journal's command, and to its exact length. */
  lemma SameCommand(j: Journal, w: Write)
    requires Chained(j, FullRequest(j.command)) && ValidCommand(j.command)
    requires WellFormed(w) && ValidCommand(w.command) && !w.ConsumeOnce? && SameChain(w)
    requires Previous(w) == LastReceipt(j)
    ensures w.command == j.command && j.closing.None?
    ensures w.AppendTransition? ==> j.intent.Some? && w.transition.sequence == |j.transitions|
    ensures w.AppendIntent? ==> j.intent.None?
    ensures w.Finalize? ==> j.intent.Some? && w.closing.terminal.transitionCount == |j.transitions|
  {
    var n := |j.transitions|;
    if j.closing.None? && n > 0 {
      assert LinkAt(Root(j), j.command, j.transitions, n - 1);
    }
  }

  /** Landing keeps the invariant: only the table moves, and it only grows. */
  lemma LandKeepsInv(w: World, m: Message)
    requires Inv(w) && m in w.sent
    ensures Inv(Step(w, Land(m)))
    ensures Progress(w, Step(w, Land(m)))
  {
    hide RunOk, MessageOk, Contains, Announced, ItemOk, EffectOk, Condition, Updated, Grows;
    var key := KeyOf(m.write);
    var w' := Step(w, Land(m));
    forall k ensures GrowsOption(JournalAt(w, k), JournalAt(w, k)) {
      Unmoved(JournalAt(w, k));
    }
    if Condition(m.write, At(w.table, key)) {
      LandingExtends(w, m);
      assert TableOk(w');
      forall k ensures GrowsOption(JournalAt(w, k), JournalAt(w', k)) {
        assert k != key ==> JournalAt(w', k) == JournalAt(w, k);
      }
      GrowthKeepsInv(w, w', m);
    }
  }

  lemma Unmoved(o: Option<Journal>)
    ensures GrowsOption(o, o)
  {
  }

  /** Journals only grow, and no run takes anything back. */
  ghost predicate Progress(w: World, w': World) {
    && (forall k {:trigger JournalAt(w', k)} :: GrowsOption(JournalAt(w, k), JournalAt(w', k)))
    && w'.runs.Keys == w.runs.Keys
    && forall p :: p in w.runs ==> Advances(w.runs[p], w'.runs[p])
  }

  lemma GrowthKeepsInv(w: World, w': World, m: Message)
    requires Inv(w) && TableOk(w') && w' == w.(table := w'.table, applied := w.applied + {m})
    requires Progress(w, w') && m in w.sent
    requires JournalAt(w', KeyOf(m.write)).Some? && Contains(JournalAt(w', KeyOf(m.write)).value, m.write)
    ensures Inv(w')
  {
    hide RunOk, MessageOk, Contains, Announced, ItemOk, Grows, Condition;
    forall p | p in w'.runs ensures RunOk(w'.runs[p], JournalAt(w', w'.runs[p].command.globalKeySha256)) {
      var k := w.runs[p].command.globalKeySha256;
      RunOkGrows(w.runs[p], JournalAt(w, k), JournalAt(w', k));
    }
    forall x | x in w'.applied
      ensures x in w'.sent && JournalAt(w', KeyOf(x.write)).Some? &&
                Contains(JournalAt(w', KeyOf(x.write)).value, x.write)
    {
      if x in w.applied {
        var k := KeyOf(x.write);
        assert GrowsOption(JournalAt(w, k), JournalAt(w', k));
        ContainsGrows(JournalAt(w, k).value, JournalAt(w', k).value, x.write);
      }
    }
    forall h | h in w'.effects ensures EffectOk(h, w') {
      var k := w.runs[h.run].command.globalKeySha256;
      assert EffectOk(h, w) && GrowsOption(JournalAt(w, k), JournalAt(w', k));
      AnnouncedGrows(JournalAt(w, k).value, JournalAt(w', k).value, h.effect);
    }
  }

  // ----- A run moves --------------------------------------------------------------------------

  /** What a run never takes back. */
  ghost predicate Advances(r: Run, r': Run) {
    && r'.command == r.command
    && (r.attempt.Some? ==> r'.attempt == r.attempt) && (r.announced.Some? ==> r'.announced == r.announced)
    && (r.consumed ==> r'.consumed) && (r.dispatched ==> r'.dispatched) && r.issued <= r'.issued
  }

  lemma MessageOkAdvances(m: Message, runs: map<nat, Run>, p: nat, r': Run)
    requires MessageOk(m, runs) && p in runs && Advances(runs[p], r')
    ensures MessageOk(m, runs[p := r'])
  {
  }

  lemma EffectOkAdvances(h: Happening, w: World, w': World, p: nat)
    requires EffectOk(h, w) && w'.table == w.table
    requires p in w.runs && p in w'.runs && Advances(w.runs[p], w'.runs[p]) && w'.runs == w.runs[p := w'.runs[p]]
    ensures EffectOk(h, w')
  {
    hide Announced, ItemOk;
  }

  /**
    A step of one run that leaves the table alone keeps the invariant if its new state and its new message are sound.
   */
  lemma RunStepKeepsInv(w: World, w': World, p: nat, r': Run, sent: set<Message>, effects: set<Happening>)
    requires Inv(w) && p in w.runs && Advances(w.runs[p], r')
    requires w' == w.(runs := w.runs[p := r'], sent := w.sent + sent, effects := w.effects + effects)
    requires RunOk(r', JournalAt(w, r'.command.globalKeySha256))
    requires forall m :: m in sent ==> MessageOk(m, w'.runs)
    requires forall h :: h in effects ==> EffectOk(h, w')
    ensures Inv(w') && Progress(w, w')
  {
    hide RunOk, MessageOk, EffectOk, ItemOk, Contains;
    forall k ensures GrowsOption(JournalAt(w, k), JournalAt(w', k)) {}
    forall m | m in w'.sent ensures MessageOk(m, w'.runs) {
      if m in w.sent {
        MessageOkAdvances(m, w.runs, p, r');
      }
    }
    forall q | q in w'.runs ensures RunOk(w'.runs[q], JournalAt(w', w'.runs[q].command.globalKeySha256)) {
      if q != p {
        assert RunOk(w.runs[q], JournalAt(w, w.runs[q].command.globalKeySha256));
      }
    }
    forall h | h in w'.effects ensures EffectOk(h, w') {
      if h in w.effects {
        EffectOkAdvances(h, w, w', p);
      }
    }
  }

  /** Sending a sound write keeps the invariant. */
  lemma IssueKeepsInv(w: World, p: nat, r: Run)
    requires Inv(w) && p in w.runs && Advances(w.runs[p], r) && Pending(r).Some?
    requires RunOk(r, JournalAt(w, r.command.globalKeySha256))
    requires MessageOk(Message(p, Pending(r).value), w.runs[p := r])
    ensures Inv(Issue(w, p, r)) && Progress(w, Issue(w, p, r))
  {
    hide RunOk, MessageOk, EffectOk, ItemOk, Contains, Inv;
    assert Issue(w, p, r) ==
      w.(runs := w.runs[p := r], sent := w.sent + {Message(p, Pending(r).value)}, effects := w.effects + {});
    RunStepKeepsInv(w, Issue(w, p, r), p, r, {Message(p, Pending(r).value)}, {});
  }

  lemma BecomeKeepsInv(w: World, p: nat, r: Run)
    requires Inv(w) && p in w.runs && Advances(w.runs[p], r)
    requires RunOk(r, JournalAt(w, r.command.globalKeySha256))
    ensures Inv(Become(w, p, r)) && Progress(w, Become(w, p, r))
  {
    hide RunOk, MessageOk, EffectOk, ItemOk, Contains, Inv;
    assert Become(w, p, r) == w.(runs := w.runs[p := r], sent := w.sent + {}, effects := w.effects + {});
    RunStepKeepsInv(w, Become(w, p, r), p, r, {}, {});
  }

  /** What the invariant says of one run. */
  lemma InvAt(w: World, p: nat)
    requires Inv(w) && p in w.runs
    ensures TableOk(w) && RunOk(w.runs[p], JournalAt(w, w.runs[p].command.globalKeySha256))
    ensures var o := JournalAt(w, w.runs[p].command.globalKeySha256);
      o.Some? ==> JournalOk(o.value, w.runs[p].command.globalKeySha256)
  {
    hide RunOk, MessageOk, EffectOk, Contains;
    var key := w.runs[p].command.globalKeySha256;
    if key in w.table {
      DecodeOk(w.table[key], key);
    }
  }

  // ----- The next state of one run, on its own ------------------------------------------------

  /** Whatever write it was, once the journal contains it the run's next state is sound. */
  lemma ContinuedOk(r: Run, o: Option<Journal>)
    requires RunOk(r, o) && Pending(r).Some? && o.Some? && Contains(o.value, Pending(r).value)
    ensures RunOk(Continued(r), o) && Advances(r, Continued(r))
  {
    assert Emitted(0) == 0;
    match r.pc {
      case Recording(v, _, _) => assert Emitted(v.ip + 1) == Emitted(v.ip) + 1;
      case _ =>
    }
  }

  /** The phase a run may emit next is the one the table expects, and its record links to the run's view. */
  lemma EmittingOk(r: Run, o: Option<Journal>, payload: nat)
    requires RunOk(r, o) && r.pc.Dispatching? && r.pc.view.ip < |BOOTSTRAP| && BOOTSTRAP[r.pc.view.ip].Emit?
    requires o.Some? ==> JournalOk(o.value, r.command.globalKeySha256)
    ensures var v := r.pc.view; var op := BOOTSTRAP[v.ip];
      && v.sequence < 12 && op.phase == EXPECTED_BOOTSTRAP_PHASES[v.sequence]
      && op.mutationDispatched == EXPECTED_MUTATION_DISPATCH[v.sequence]
      && var t := TransitionFor(r.command, v, op.phase, op.mutationDispatched, payload);
         var v' := v.(possibleMutation := v.possibleMutation || op.mutationDispatched);
         && RunOk(r.(issued := v.sequence + 1, pc := Recording(v', t, false)), o)
         && WellFormed(AppendTransition(r.command, t)) && SameChain(AppendTransition(r.command, t))
  {
    var v := r.pc.view;
    BootstrapFollowsTable(v.ip);
    EmittedFromStart(v.ip);
    TailIsLink(o.value, v.sequence);
  }

  /** The first operation already announces a mutation. */
  lemma EmittedFromStart(ip: nat)
    requires ip < |BOOTSTRAP|
    ensures Emitted(ip) == 0 <==> ip == 0
    ensures BOOTSTRAP[0] == Emit(SignerSecretDispatching, true)
  {
    EmittedSteps();
  }

  /** An effect happens only where its dispatch phase is already in the run's durable prefix. */
  lemma PerformingOk(r: Run, o: Option<Journal>)
    requires RunOk(r, o) && r.pc.Dispatching? && r.pc.view.ip < |BOOTSTRAP| && BOOTSTRAP[r.pc.view.ip].Perform?
    requires o.Some? ==> JournalOk(o.value, r.command.globalKeySha256)
    ensures var v := r.pc.view;
      && RunOk(r.(pc := Dispatching(v.(ip := v.ip + 1))), o)
      && o.Some? && Announced(o.value, BOOTSTRAP[v.ip].effect)
  {
    var v := r.pc.view;
    BootstrapFollowsTable(v.ip);
    assert Emitted(v.ip + 1) == Emitted(v.ip);
    assert OnTable(o.value.transitions[v.sequence - 1], v.sequence - 1);
  }

  /** A closing computed from a sound view, by any of the paths that compute one. */
  lemma ClosingIsSound(c: Command, status: Status, now: int, receipt: Record, previous: Digest, count: nat)
    requires ValidCommand(c) && LinkedAfter(previous, count) && previous.preimage.binding == BindingOf(c)
    requires !status.UnknownStatus?
    requires status.Confirmed? ==> DispatchReceiptValid(receipt, c, count)
    requires status.FailedTerminal? ==> count == 0
    ensures var cl := ClosingFor(c, status, now, !status.FailedTerminal?, receipt, previous, count);
      Concludable(cl, c)
  {
  }

  /** Every tail of a sound journal is a receipt of its own command, at its own position. */
  lemma TailIsLink(j: Journal, n: nat)
    requires Chained(j, FullRequest(j.command)) && j.intent.Some? && n <= |j.transitions|
    ensures LinkedAfter(Tail(j, n), n) && Tail(j, n).preimage.binding == BindingOf(j.command)
  {
    if n > 0 {
      assert LinkAt(Root(j), j.command, j.transitions, n - 1);
    }
  }

  // ----- Each event ---------------------------------------------------------------------------

  lemma ConcludingOk(r: Run, cl: Closing, recovering: bool, o: Option<Journal>, p: nat, runs: map<nat, Run>)
    requires RunOk(r, o) && ValidCommand(r.command) && Concludable(cl, r.command) && (recovering ==> r.attempt.None?)
    ensures var r' := r.(pc := Concluding(cl, recovering, false));
      RunOk(r', o) && MessageOk(Message(p, Finalize(r.command, cl)), runs[p := r'])
  {
  }

  /** A closing may be sent whenever it is sound. */
  lemma ConcludeKeepsInv(w: World, p: nat, cl: Closing, recovering: bool)
    requires Inv(w) && p in w.runs && ValidCommand(w.runs[p].command)
    requires Concludable(cl, w.runs[p].command)
    requires recovering ==> w.runs[p].attempt.None?
    ensures Inv(Conclude(w, p, cl, recovering)) && Progress(w, Conclude(w, p, cl, recovering))
  {
    hide Inv, Concludable, Progress;
    InvAt(w, p);
    ConcludingOk(w.runs[p], cl, recovering, JournalAt(w, w.runs[p].command.globalKeySha256), p, w.runs);
    IssueKeepsInv(w, p, w.runs[p].(pc := Concluding(cl, recovering, false)));
  }

  /** The catch block closes as ambiguous unless nothing was ever recorded. */
  lemma AbandonKeepsInv(w: World, p: nat, v: View, cause: nat, now: int)
    requires Inv(w) && p in w.runs
    requires ViewOk(w.runs[p], v, JournalAt(w, w.runs[p].command.globalKeySha256))
    requires v.sequence <= w.runs[p].issued
    ensures Inv(Abandon(w, p, v, cause, now)) && Progress(w, Abandon(w, p, v, cause, now))
  {
    hide Inv, Progress;
    InvAt(w, p);
    var r := w.runs[p];
    var j := JournalAt(w, r.command.globalKeySha256).value;
    TailIsLink(j, v.sequence);
    ClosingIsSound(r.command, if v.possibleMutation then Ambiguous else FailedTerminal, now,
                   FailedReceipt(cause, v.previous, v.sequence), v.previous, v.sequence);
    ConcludeKeepsInv(w, p, FailureClosing(r.command, v, cause, now), false);
  }

  ghost predicate DurablePending(w: World, p: nat)
    requires p in w.runs && Pending(w.runs[p]).Some?
  {
    var o := JournalAt(w, w.runs[p].command.globalKeySha256);
    o.Some? && Contains(o.value, Pending(w.runs[p]).value)
  }

  /** A write known to be durable: the controller's next step is sound. */
  lemma ProceedKeepsInv(w: World, p: nat)
    requires Inv(w) && p in w.runs && Pending(w.runs[p]).Some?
    requires DurablePending(w, p)
    ensures Inv(Proceed(w, p)) && Progress(w, Proceed(w, p))
  {
    hide Inv, Progress, Contains, RunOk, MessageOk, Continued, Advances;
    InvAt(w, p);
    var r := Continued(w.runs[p]);
    ContinuedOk(w.runs[p], JournalAt(w, w.runs[p].command.globalKeySha256));
    SameCommandContinues(w.runs[p]);
    if Pending(r).Some? {
      IntentMessageOk(w.runs[p], p, JournalAt(w, r.command.globalKeySha256), w.runs[p := r]);
      IssueKeepsInv(w, p, r);
    } else {
      BecomeKeepsInv(w, p, r);
    }
  }

  lemma SameCommandContinues(r: Run)
    requires Pending(r).Some?
    ensures Continued(r).command == r.command
    ensures Pending(Continued(r)).Some? ==> r.pc.Consuming?
  {
  }

  lemma IntentMessageOk(r: Run, p: nat, o: Option<Journal>, runs: map<nat, Run>)
    requires RunOk(r, o) && r.pc.Consuming? && p in runs && runs[p] == Continued(r)
    ensures MessageOk(Message(p, Pending(Continued(r)).value), runs)
  {
  }

  /** A write given up on: a transition failure reaches the catch block, anything else ends the run. */
  lemma GiveUpKeepsInv(w: World, p: nat, now: int)
    requires Inv(w) && p in w.runs && Pending(w.runs[p]).Some?
    ensures Inv(GiveUp(w, p, now)) && Progress(w, GiveUp(w, p, now))
  {
    hide Inv, Progress;
    InvAt(w, p);
    var r := w.runs[p];
    if r.pc.Recording? {
      AbandonKeepsInv(w, p, r.pc.view, 0, now);
    } else {
      BecomeKeepsInv(w, p, Fail(r));
    }
  }

  lemma ReadKeepsInv(w: World, p: nat, ok: bool)
    requires Inv(w) && Enabled(w, ReadStrong(p, ok))
    ensures Inv(StepRead(w, p, ok)) && Progress(w, StepRead(w, p, ok))
  {
    hide Inv, Progress, JournalOk, Recoverable;
    InvAt(w, p);
    var r := w.runs[p];
    BecomeKeepsInv(w, p, Fail(r));
    if ValidCommand(r.command) {
      if r.command.globalKeySha256 !in w.table {
        BecomeKeepsInv(w, p, r.(pc := Absent));
      } else {
        var j := Decode(w.table[r.command.globalKeySha256]);
        BecomeKeepsInv(w, p, r.(pc := Occupied(StoredRecord(j, StateOf(j), VersionOf(j), LastReceipt(j)))));
      }
    }
  }

  lemma AuthenticateKeepsInv(w: World, p: nat, authentication: nat, now: int)
    requires Inv(w) && Enabled(w, Authenticate(p, authentication, now))
    ensures var w' := Step(w, Authenticate(p, authentication, now)); Inv(w') && Progress(w, w')
  {
    hide Inv, Progress, JournalOk;
    InvAt(w, p);
    var r := w.runs[p];
    var c := Consumption(BindingOf(r.command), r.command.coordinates.approvalId, now, 1);
    IssueKeepsInv(w, p, r.(attempt := Some(c), pc := Consuming(c, authentication, false)));
  }

  lemma RecoverKeepsInv(w: World, p: nat, now: int)
    requires Inv(w) && Enabled(w, AuthenticateRecovery(p, now))
    ensures Inv(StepRecover(w, p, now)) && Progress(w, StepRecover(w, p, now))
  {
    hide Inv, Progress, Recoverable, RecordSummaryFits, RunOk, JournalOk, ClosingSound, WellFormed, SameChain;
    InvAt(w, p);
    var r := w.runs[p];
    var j := r.pc.found.journal;
    RecoveringOk(r, JournalAt(w, r.command.globalKeySha256));
    BecomeKeepsInv(w, p, Fail(r));
    if Recoverable(j, r.command) && j.closing.None? {
      var n := |j.transitions|;
      RecoverableTail(j, r.command);
      ClosingIsSound(r.command, Ambiguous, now, FailedReceipt(1, Tail(j, n), n), Tail(j, n), n);
      var closing := ClosingFor(r.command, Ambiguous, now, true, FailedReceipt(1, Tail(j, n), n), Tail(j, n), n);
      ConcludeKeepsInv(w, p, closing, true);
    } else if Recoverable(j, r.command) {
      RecoverableOutcome(j, r.command);
      if j.closing.value.outcome.status.Confirmed? {
        BecomeKeepsInv(w, p, r.(pc := Passed(j.closing.value)));
      }
    }
  }

  lemma RecoverableOutcome(j: Journal, c: Command)
    requires Recoverable(j, c) && j.closing.Some?
    ensures j.closing.value.outcome.Outcome?
  {
  }

  lemma RecoveringOk(r: Run, o: Option<Journal>)
    requires RunOk(r, o) && r.pc.Occupied?
    ensures RunOk(Fail(r), o) && r.attempt.None? && ValidCommand(r.command)
    ensures var j := r.pc.found.journal;
      j.closing.Some? && j.closing.value.outcome.Outcome? && j.closing.value.outcome.status.Confirmed? ==>
        RunOk(r.(pc := Passed(j.closing.value)), o)
  {
  }

  lemma RecoverableTail(j: Journal, c: Command)
    requires Recoverable(j, c)
    ensures LinkedAfter(Tail(j, |j.transitions|), |j.transitions|)
    ensures Tail(j, |j.transitions|).preimage.binding == BindingOf(c)
  {
    var n := |j.transitions|;
    if n > 0 {
      assert LinkAt(Root(j), c, j.transitions, n - 1);
    }
  }

  lemma ReadBackKeepsInv(w: World, p: nat, ok: bool, now: int)
    requires Inv(w) && Enabled(w, ReadBack(p, ok, now))
    ensures Inv(StepReadBack(w, p, ok, now)) && Progress(w, StepReadBack(w, p, ok, now))
  {
    hide Inv, Progress, RunOk;
    InvAt(w, p);
    var r := w.runs[p];
    var o := JournalAt(w, r.command.globalKeySha256);
    GiveUpKeepsInv(w, p, now);
    if o.Some? && AcceptedBy(o.value, Pending(r).value) {
      AcceptedIsContained(r, o.value);
      ProceedKeepsInv(w, p);
    }
  }

  /** The `accept` tests of a reconciling read are strong enough: what they accept is in the journal. */
  lemma AcceptedIsContained(r: Run, j: Journal)
    requires Pending(r).Some? && AcceptedBy(j, Pending(r).value)
    requires RunOk(r, Some(j)) && JournalOk(j, r.command.globalKeySha256)
    ensures Contains(j, Pending(r).value)
  {
  }

  /** A run at an emission, after it sent its transition. */
  function EmittingRun(r: Run, payload: nat): Run
    requires r.pc.Dispatching? && r.pc.view.ip < |BOOTSTRAP| && BOOTSTRAP[r.pc.view.ip].Emit?
  {
    var v := r.pc.view;
    var op := BOOTSTRAP[v.ip];
    r.(issued := v.sequence + 1,
       pc := Recording(v.(possibleMutation := v.possibleMutation || op.mutationDispatched),
                       TransitionFor(r.command, v, op.phase, op.mutationDispatched, payload), false))
  }

  lemma EmitUnfolds(w: World, p: nat, payload: nat)
    requires Enabled(w, Advance(p, payload)) && BOOTSTRAP[w.runs[p].pc.view.ip].Emit?
    requires var v := w.runs[p].pc.view;
      && v.sequence < 12 && BOOTSTRAP[v.ip].phase == EXPECTED_BOOTSTRAP_PHASES[v.sequence]
      && BOOTSTRAP[v.ip].mutationDispatched == EXPECTED_MUTATION_DISPATCH[v.sequence]
    ensures StepAdvance(w, p, payload) == Issue(w, p, EmittingRun(w.runs[p], payload))
  {
    hide BOOTSTRAP, EXPECTED_BOOTSTRAP_PHASES, EXPECTED_MUTATION_DISPATCH;
  }

  lemma EmitKeepsInv(w: World, p: nat, payload: nat)
    requires Inv(w) && Enabled(w, Advance(p, payload)) && BOOTSTRAP[w.runs[p].pc.view.ip].Emit?
    ensures Inv(StepAdvance(w, p, payload)) && Progress(w, StepAdvance(w, p, payload))
  {
    hide Inv, Progress, JournalOk, Announced, RunOk, Chained, WellFormed, SameChain, MessageOk, StepAdvance, Issue,
      BOOTSTRAP, JournalAt, Advances;
    InvAt(w, p);
    var r := w.runs[p];
    var o := JournalAt(w, r.command.globalKeySha256);
    EmittingOk(r, o, payload);
    EmitUnfolds(w, p, payload);
    var r' := EmittingRun(r, payload);
    TransitionMessageOk(r', p, o, w.runs[p := r'], r);
    IssueKeepsInv(w, p, r');
  }

  lemma PerformKeepsInv(w: World, p: nat, payload: nat)
    requires Inv(w) && Enabled(w, Advance(p, payload)) && BOOTSTRAP[w.runs[p].pc.view.ip].Perform?
    ensures Inv(StepAdvance(w, p, payload)) && Progress(w, StepAdvance(w, p, payload))
  {
    hide Inv, Progress, JournalOk, Announced, RunOk, Chained, MessageOk;
    InvAt(w, p);
    var r := w.runs[p];
    var v := r.pc.view;
    var happening := Happening(p, BOOTSTRAP[v.ip].effect);
    PerformingOk(r, JournalAt(w, r.command.globalKeySha256));
    DispatchingIsDispatched(r, JournalAt(w, r.command.globalKeySha256));
    var w' := StepAdvance(w, p, payload);
    assert w' == w.(runs := w.runs[p := w'.runs[p]], sent := w.sent + {}, effects := w.effects + {happening});
    assert EffectOk(happening, w');
    RunStepKeepsInv(w, w', p, r.(pc := Dispatching(v.(ip := v.ip + 1))), {}, {happening});
  }

  lemma DispatchingIsDispatched(r: Run, o: Option<Journal>)
    requires RunOk(r, o) && r.pc.Dispatching?
    ensures r.dispatched
  {
  }

  lemma TransitionMessageOk(r: Run, p: nat, o: Option<Journal>, runs: map<nat, Run>, before: Run)
    requires RunOk(r, o) && r.pc.Recording? && p in runs && runs[p] == r && ValidCommand(r.command)
    requires RunOk(before, o) && before.pc.Dispatching?
    requires r == before.(issued := before.pc.view.sequence + 1, pc := r.pc)
    requires WellFormed(AppendTransition(r.command, r.pc.transition))
    requires SameChain(AppendTransition(r.command, r.pc.transition))
    ensures MessageOk(Message(p, AppendTransition(r.command, r.pc.transition)), runs)
    ensures Advances(before, r)
  {
  }

  lemma ReturnKeepsInv(w: World, p: nat, receipt: Record, now: int)
    requires Inv(w) && Enabled(w, DispatchReturns(p, receipt, now))
    ensures Inv(StepReturn(w, p, receipt, now)) && Progress(w, StepReturn(w, p, receipt, now))
  {
    hide Inv, Progress;
    InvAt(w, p);
    var r := w.runs[p];
    var v := r.pc.view;
    AbandonKeepsInv(w, p, v, 0, now);
    if DispatchReceiptValid(receipt, r.command, v.sequence) {
      TailIsLink(JournalAt(w, r.command.globalKeySha256).value, v.sequence);
      ClosingIsSound(r.command, Confirmed, now, receipt, v.previous, v.sequence);
      ConcludeKeepsInv(w, p, ClosingFor(r.command, Confirmed, now, true, receipt, v.previous, v.sequence), false);
    }
  }

  lemma LossKeepsInv(w: World, p: nat)
    requires Inv(w) && Enabled(w, CallFails(p))
    ensures Inv(Step(w, CallFails(p))) && Progress(w, Step(w, CallFails(p)))
  {
    hide Inv, Progress;
    InvAt(w, p);
    LossOk(w.runs[p], JournalAt(w, w.runs[p].command.globalKeySha256));
    BecomeKeepsInv(w, p, WithLost(w.runs[p]));
  }

  lemma LossOk(r: Run, o: Option<Journal>)
    requires RunOk(r, o) && Pending(r).Some?
    ensures RunOk(WithLost(r), o) && Advances(r, WithLost(r))
  {
  }

  // ----- Every event, every run ---------------------------------------------------------------

  /** Each event keeps the invariant, and no journal ever loses a link. */
  lemma EventKeepsInv(w: World, e: Event)
    requires Inv(w) && Enabled(w, e)
    ensures Inv(Step(w, e)) && Progress(w, Step(w, e))
  {
    hide Inv, Progress, Condition, Updated;
    match e {
      case Land(m) => SentInv(w, m); LandKeepsInv(w, m);
      case ReadStrong(p, ok) => ReadKeepsInv(w, p, ok);
      case Authenticate(p, a, now) => AuthenticateKeepsInv(w, p, a, now);
      case AuthenticateRecovery(p, now) => RecoverKeepsInv(w, p, now);
      case Acknowledge(p) =>
        AppliedIsDurable(w, p);
        ProceedKeepsInv(w, p);
      case CallFails(p) => LossKeepsInv(w, p);
      case ReadBack(p, ok, now) => ReadBackKeepsInv(w, p, ok, now);
      case Advance(p, payload) =>
        if BOOTSTRAP[w.runs[p].pc.view.ip].Emit? {
          EmitKeepsInv(w, p, payload);
        } else {
          PerformKeepsInv(w, p, payload);
        }
      case DispatchThrows(p, cause, now) =>
        InvAt(w, p);
        AbandonKeepsInv(w, p, w.runs[p].pc.view, cause, now);
      case DispatchReturns(p, receipt, now) => ReturnKeepsInv(w, p, receipt, now);
      case Stop(p) =>
        InvAt(w, p);
        BecomeKeepsInv(w, p, Fail(w.runs[p]));
    }
  }

  lemma SentInv(w: World, m: Message)
    requires Inv(w) && m in w.sent
    ensures MessageOk(m, w.runs)
  {
  }

  lemma AppliedIsDurable(w: World, p: nat)
    requires Inv(w) && Enabled(w, Acknowledge(p))
    ensures DurablePending(w, p)
  {
    PendingCommand(w.runs[p]);
  }

  lemma PendingCommand(r: Run)
    requires Pending(r).Some?
    ensures Pending(r).value.command == r.command
  {
  }

  lemma InitInv(w: World)
    requires Init(w)
    ensures Inv(w)
  {
  }

  /** The world after a sequence of events, and whether each was enabled in its turn. */
  ghost predicate Feasible(w: World, events: seq<Event>)
    decreases |events|
  {
    events == [] || (Enabled(w, events[0]) && Feasible(Step(w, events[0]), events[1..]))
  }

  ghost function After(w: World, events: seq<Event>): World
    requires Feasible(w, events)
    decreases |events|
  {
    if events == [] then w else After(Step(w, events[0]), events[1..])
  }

  ghost predicate Reachable(w: World) {
    exists start, events :: Init(start) && Feasible(start, events) && After(start, events) == w
  }

  lemma ProgressTransitive(w: World, w1: World, w2: World)
    requires Progress(w, w1) && Progress(w1, w2)
    ensures Progress(w, w2)
  {
    forall k ensures GrowsOption(JournalAt(w, k), JournalAt(w2, k)) {
      assert GrowsOption(JournalAt(w, k), JournalAt(w1, k)) && GrowsOption(JournalAt(w1, k), JournalAt(w2, k));
    }
    forall p | p in w.runs ensures Advances(w.runs[p], w2.runs[p]) {
      assert Advances(w.runs[p], w1.runs[p]) && Advances(w1.runs[p], w2.runs[p]);
    }
  }

  lemma {:induction false} RunsKeepInv(w: World, events: seq<Event>)
    requires Inv(w) && Feasible(w, events)
    ensures Inv(After(w, events)) && Progress(w, After(w, events))
    decreases |events|
  {
    hide Inv, Step, Enabled;
    if events == [] {
      forall k ensures GrowsOption(JournalAt(w, k), JournalAt(w, k)) {}
    } else {
      var w1 := Step(w, events[0]);
      var w2 := After(w1, events[1..]);
      EventKeepsInv(w, events[0]);
      RunsKeepInv(w1, events[1..]);
      ProgressTransitive(w, w1, w2);
    }
  }

  lemma ReachableInv(w: World)
    requires Reachable(w)
    ensures Inv(w)
  {
    hide Inv, Init;
    var start, events :| Init(start) && Feasible(start, events) && After(start, events) == w;
    InitInv(start);
    RunsKeepInv(start, events);
  }
}
