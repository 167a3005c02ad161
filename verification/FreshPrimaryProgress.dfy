/**
  That the protocol can do its work: whatever happened before, a run that finds its effect's key free passes as
  soon as it is left undisturbed.
 */
module FreshPrimaryProgress {
  import opened Options
  import opened FreshPrimaryJournal
  import opened FreshPrimaryController
  import opened FreshPrimaryProtocol
  import opened FreshPrimarySafety
  import opened FreshPrimaryLag

  ghost predicate Leads(w: World, w': World) {
    exists events :: Feasible(w, events) && After(w, events) == w'
  }

  lemma LeadsNowhere(w: World)
    ensures Leads(w, w)
  {
    assert Feasible(w, []) && After(w, []) == w;
  }

  lemma LeadsOn(w: World, w': World, e: Event)
    requires Leads(w, w') && Enabled(w', e)
    ensures Leads(w, Step(w', e))
  {
    hide Enabled, Step;
    var events :| Feasible(w, events) && After(w, events) == w';
    AfterAppend(w, events, e);
    assert Feasible(w, events + [e]) && After(w, events + [e]) == Step(w', e);
  }

  lemma LeadsInv(w: World, w': World)
    requires Inv(w) && Leads(w, w')
    ensures Inv(w')
  {
    hide Inv;
    var events :| Feasible(w, events) && After(w, events) == w';
    RunsKeepInv(w, events);
  }

  /** The world after a request was applied. */
  function Applied(w: World, m: Message): World
    requires Condition(m.write, At(w.table, KeyOf(m.write)))
  {
    var key := KeyOf(m.write);
    w.(table := w.table[key := Updated(m.write, At(w.table, key))], applied := w.applied + {m})
  }

  /** A write whose condition holds can land and be acknowledged. */
  lemma LandsAndAnswers(w: World, w1: World, p: nat)
    requires Leads(w, w1) && p in w1.runs && Pending(w1.runs[p]).Some? && !Lost(w1.runs[p])
    requires var m := Message(p, Pending(w1.runs[p]).value);
      m in w1.sent && Condition(m.write, At(w1.table, KeyOf(m.write)))
    ensures Leads(w, Proceed(Applied(w1, Message(p, Pending(w1.runs[p]).value)), p))
  {
    hide Condition, Updated, Leads;
    var m := Message(p, Pending(w1.runs[p]).value);
    LeadsOn(w, w1, Land(m));
    var w2 := Step(w1, Land(m));
    assert w2 == Applied(w1, m);
    LeadsOn(w, w2, Acknowledge(p));
  }

  /** A run whose view is the whole durable journal, which is still open. */
  ghost predicate Undisturbed(w: World, p: nat, ip: nat) {
    && p in w.runs && w.runs[p].pc.Dispatching? && w.runs[p].pc.view.ip == ip <= |BOOTSTRAP|
    && w.runs[p].command.globalKeySha256 in w.table
    && var j := Decode(w.table[w.runs[p].command.globalKeySha256]);
       j.closing.None? && |j.transitions| == w.runs[p].pc.view.sequence
  }

  /** The next write of an undisturbed run passes its condition and extends the journal. */
  lemma NextWriteLands(w: World, p: nat, ip: nat, write: Write)
    requires Inv(w) && Undisturbed(w, p, ip) && WellFormed(write) && !write.ConsumeOnce?
    requires write.command == w.runs[p].command && Previous(write) == w.runs[p].pc.view.previous
    ensures var key := w.runs[p].command.globalKeySha256; var j := Decode(w.table[key]);
      && Condition(write, At(w.table, key))
      && Decode(Updated(write, At(w.table, key))) == Extend(j, write)
  {
    hide MessageOk, EffectOk;
    InvAt(w, p);
    var key := w.runs[p].command.globalKeySha256;
    var j := Decode(w.table[key]);
    DecodeOk(w.table[key], key);
    hide Linked, FollowsTable, WellFormed;
    ConditionIsCompareLastReceipt(j, FullRequest(j.command), write);
    UpdatedEncodesExtension(j, FullRequest(j.command), write);
    DecodeEncode(Extend(j, write));
  }

  /** The run is what it was, but for its program counter and what it remembers; the others did not move. */
  ghost predicate SameRun(w: World, w': World, p: nat) {
    && p in w.runs && p in w'.runs && w'.runs[p].command == w.runs[p].command
    && forall q :: q in w.runs && q != p ==> q in w'.runs && w'.runs[q] == w.runs[q]
  }

  lemma UndisturbedParts(w: World, p: nat, ip: nat)
    requires Undisturbed(w, p, ip)
    ensures ip <= |BOOTSTRAP| && p in w.runs && w.runs[p].pc.Dispatching? && w.runs[p].pc.view.ip == ip
    ensures w.runs[p].command.globalKeySha256 in w.table
  {
  }

  /** The transition an emission sends is one its condition can accept. */
  lemma NextEmission(r: Run, o: Option<Journal>)
    requires RunOk(r, o) && r.pc.Dispatching? && r.pc.view.ip < |BOOTSTRAP| && BOOTSTRAP[r.pc.view.ip].Emit?
    requires o.Some? ==> JournalOk(o.value, r.command.globalKeySha256)
    ensures var v := r.pc.view;
      && v.sequence < 12 && BOOTSTRAP[v.ip].phase == EXPECTED_BOOTSTRAP_PHASES[v.sequence]
      && BOOTSTRAP[v.ip].mutationDispatched == EXPECTED_MUTATION_DISPATCH[v.sequence]
    ensures var write := Pending(EmittingRun(r, 0)).value;
      WellFormed(write) && write.AppendTransition? && Previous(write) == r.pc.view.previous &&
          write.command == r.command
  {
    hide BOOTSTRAP, JournalOk, RunOk;
    EmittingOk(r, o, 0);
  }

  lemma EmitEnabled(w: World, p: nat)
    requires p in w.runs && w.runs[p].pc.Dispatching? && w.runs[p].pc.view.ip < |BOOTSTRAP|
    ensures Enabled(w, Advance(p, 0)) && Step(w, Advance(p, 0)) == StepAdvance(w, p, 0)
  {
    hide StepAdvance, BOOTSTRAP;
  }

  /** One emission: sent, landed, acknowledged. */
  lemma EmitStep(w0: World, w: World, p: nat, ip: nat) returns (w': World)
    requires Inv(w0) && Leads(w0, w) && Undisturbed(w, p, ip) && ip < |BOOTSTRAP| && BOOTSTRAP[ip].Emit?
    ensures Leads(w0, w') && Undisturbed(w', p, ip + 1) && SameRun(w, w', p) && w'.effects == w.effects
  {
    hide Inv, Leads, Undisturbed, WellFormed, Previous, Condition, Updated, Extend, BOOTSTRAP, EmittingRun, Step,
      Enabled, StepAdvance, RunOk, JournalOk, JournalAt, TableOk, SameRun, Proceed;
    LeadsInv(w0, w);
    UndisturbedParts(w, p, ip);
    InvAt(w, p);
    var r := w.runs[p];
    NextEmission(r, JournalAt(w, r.command.globalKeySha256));
    EmitEnabled(w, p);
    EmitUnfolds(w, p, 0);
    var r1 := EmittingRun(r, 0);
    EmittingShape(r);
    var w1 := Issue(w, p, r1);
    NextWriteLands(w, p, ip, Pending(r1).value);
    LeadsOn(w0, w, Advance(p, 0));
    LandsAndAnswers(w0, w1, p);
    w' := Proceed(Applied(w1, Message(p, Pending(r1).value)), p);
    EmittedUndisturbed(w, p, ip, r1, w');
  }

  lemma EmittingShape(r: Run)
    requires r.pc.Dispatching? && r.pc.view.ip < |BOOTSTRAP| && BOOTSTRAP[r.pc.view.ip].Emit?
    ensures var r1 := EmittingRun(r, 0); r1.pc.Recording? && !r1.pc.lost && r1.command == r.command
  {
  }

  lemma EmittedUndisturbed(w: World, p: nat, ip: nat, r1: Run, w': World)
    requires Undisturbed(w, p, ip) && ip < |BOOTSTRAP| && BOOTSTRAP[ip].Emit?
    requires r1 == EmittingRun(w.runs[p], 0)
    requires Condition(Pending(r1).value, At(w.table, w.runs[p].command.globalKeySha256))
    requires var key := w.runs[p].command.globalKeySha256;
      Decode(Updated(Pending(r1).value, At(w.table, key))) == Extend(Decode(w.table[key]), Pending(r1).value)
    requires w' == Proceed(Applied(Issue(w, p, r1), Message(p, Pending(r1).value)), p)
    ensures Undisturbed(w', p, ip + 1) && SameRun(w, w', p) && w'.effects == w.effects
  {
    hide Condition, Updated, BOOTSTRAP;
  }

  /** Where the bootstrap causes an effect. */
  function PlaceOf(e: Effect): (ip: nat)
    ensures ip < |BOOTSTRAP| && BOOTSTRAP[ip] == Perform(e)
  {
    match e
    case PutSignerSecret => 1
    case DiscardAdminCredential => 6
    case CreateDatabase => 9
    case BootstrapSecurity => 12
  }

  /** It is caused nowhere else. */
  lemma PlaceIsUnique(ip: nat)
    requires ip < |BOOTSTRAP| && BOOTSTRAP[ip].Perform?
    ensures PlaceOf(BOOTSTRAP[ip].effect) == ip
  {
  }

  /** A run has caused only effects that come before one of its operations. */
  ghost predicate CausedBefore(w: World, p: nat, ip: nat) {
    forall e :: Happening(p, e) in w.effects ==> PlaceOf(e) < ip
  }

  /** One effect of the bootstrap. */
  lemma PerformStep(w0: World, w: World, p: nat, ip: nat) returns (w': World)
    requires Leads(w0, w) && Undisturbed(w, p, ip) && ip < |BOOTSTRAP| && BOOTSTRAP[ip].Perform?
    ensures Leads(w0, w') && Undisturbed(w', p, ip + 1) && SameRun(w, w', p)
    ensures w'.effects == w.effects + {Happening(p, BOOTSTRAP[ip].effect)}
  {
    hide Leads;
    LeadsOn(w0, w, Advance(p, 0));
    w' := Step(w, Advance(p, 0));
  }

  /** From any point of an undisturbed dispatch the bootstrap can be run up to any later point. */
  lemma {:induction false} DispatchRuns(w0: World, w: World, p: nat, ip: nat, goal: nat) returns (w': World)
    requires Inv(w0) && Leads(w0, w) && Undisturbed(w, p, ip) && ip <= goal <= |BOOTSTRAP|
    ensures Leads(w0, w') && Undisturbed(w', p, goal) && SameRun(w, w', p)
    ensures CausedBefore(w, p, ip) ==> CausedBefore(w', p, goal)
    decreases goal - ip
  {
    hide Inv, Leads, Undisturbed, PlaceOf;
    w' := w;
    assert SameRun(w, w, p) by { UndisturbedParts(w, p, ip); }
    if ip < goal {
      if BOOTSTRAP[ip].Emit? {
        w' := EmitStep(w0, w, p, ip);
      } else {
        w' := PerformStep(w0, w, p, ip);
        PlaceIsUnique(ip);
      }
      w' := DispatchRuns(w0, w', p, ip + 1, goal);
    }
  }

  /** A free key is read, consumed and given its intent. */
  lemma Begins(w: World, p: nat, a: nat, now: int) returns (w': World)
    requires Inv(w) && p in w.runs && w.runs[p].pc.Begin? && ValidCommand(w.runs[p].command)
    requires w.runs[p].command.globalKeySha256 !in w.table
    ensures Leads(w, w') && Undisturbed(w', p, 0) && SameRun(w, w', p) && w'.effects == w.effects
  {
    hide Inv, Leads, Undisturbed;
    var c := w.runs[p].command;
    LeadsNowhere(w);
    LeadsOn(w, w, ReadStrong(p, true));
    var w1 := Step(w, ReadStrong(p, true));
    LeadsOn(w, w1, Authenticate(p, a, now));
    var w2 := Step(w1, Authenticate(p, a, now));
    var consumption := Consumption(BindingOf(c), c.coordinates.approvalId, now, 1);
    LandsAndAnswers(w, w2, p);
    var w3 := Proceed(Applied(w2, Message(p, ConsumeOnce(c, consumption))), p);
    var j := Consumed(c, consumption);
    assert w3.table[c.globalKeySha256] == Encode(j);
    w' := Intends(w, w3, p, j);
  }

  lemma Intends(w: World, w3: World, p: nat, j: Journal) returns (w': World)
    requires Leads(w, w3) && p in w3.runs && w3.runs[p].pc.Intending? && !w3.runs[p].pc.lost
    requires var i := w3.runs[p].pc.intent; var c := w3.runs[p].command;
      && i.Intent? && i == Intent(BindingOf(c), Sha256(j.consumption), i.authentication, 2)
      && Message(p, AppendIntent(c, i)) in w3.sent
      && j == Consumed(c, j.consumption) && ConsumptionFits(j.consumption, c) && ValidCommand(c)
      && c.globalKeySha256 in w3.table && w3.table[c.globalKeySha256] == Encode(j)
    ensures Leads(w, w') && Undisturbed(w', p, 0) && SameRun(w3, w', p) && w'.effects == w3.effects
  {
    hide Leads;
    var c, i := w3.runs[p].command, w3.runs[p].pc.intent;
    var write := AppendIntent(c, i);
    assert Chained(j, FullRequest(c));
    ConditionIsCompareLastReceipt(j, FullRequest(c), write);
    UpdatedEncodesExtension(j, FullRequest(c), write);
    DecodeEncode(Extend(j, write));
    LandsAndAnswers(w, w3, p);
    w' := Proceed(Applied(w3, Message(p, write)), p);
  }

  /** The closing that confirms a complete dispatch. */
  function Confirming(r: Run, receipt: Record, now: int): Closing
    requires r.pc.Dispatching?
  {
    ClosingFor(r.command, Confirmed, now, true, receipt, r.pc.view.previous, r.pc.view.sequence)
  }

  lemma FinalWrite(r: Run, o: Option<Journal>, receipt: Record, now: int)
    requires RunOk(r, o) && r.pc.Dispatching? && r.pc.view.ip == |BOOTSTRAP| && o.Some?
    requires JournalOk(o.value, r.command.globalKeySha256) && o.value.intent.Some?
    requires DispatchReceiptValid(receipt, r.command, 12)
    ensures r.pc.view.sequence == 12 && ValidCommand(r.command)
    ensures var write := Finalize(r.command, Confirming(r, receipt, now));
      WellFormed(write) && Previous(write) == r.pc.view.previous
  {
    var v := r.pc.view;
    EmittedSteps();
    assert v.sequence == 12;
    hide BOOTSTRAP, Emitted;
    TailIsLink(o.value, v.sequence);
    ClosingIsSound(r.command, Confirmed, now, receipt, v.previous, v.sequence);
  }

  lemma ReturnUnfolds(w: World, p: nat, receipt: Record, now: int)
    requires p in w.runs && w.runs[p].pc.Dispatching? && w.runs[p].pc.view.ip == |BOOTSTRAP|
    requires DispatchReceiptValid(receipt, w.runs[p].command, w.runs[p].pc.view.sequence)
    ensures var r := w.runs[p];
      && Enabled(w, DispatchReturns(p, receipt, now))
      && Step(w, DispatchReturns(p, receipt, now)) ==
           Issue(w, p, r.(pc := Concluding(Confirming(r, receipt, now), false, false)))
  {
    hide BOOTSTRAP, DispatchReceiptValid;
  }

  /** A complete dispatch that returns a valid receipt is closed as a confirmation, and the run passes. */
  lemma Finishes(w0: World, w: World, p: nat, ip: nat, receipt: Record, now: int) returns (w': World)
    requires Inv(w0) && Leads(w0, w) && Undisturbed(w, p, ip) && ip == |BOOTSTRAP|
    requires DispatchReceiptValid(receipt, w.runs[p].command, 12)
    ensures Leads(w0, w') && p in w'.runs && w'.runs[p].pc.Passed? && w'.runs[p].pc.closing.providerReceipt == receipt
  {
    hide Inv, Leads, Undisturbed, WellFormed, Previous, Condition, Updated, Extend, BOOTSTRAP, Step, Enabled,
      RunOk, JournalOk, JournalAt, TableOk, DispatchReceiptValid;
    LeadsInv(w0, w);
    UndisturbedParts(w, p, ip);
    InvAt(w, p);
    DispatchIntended(w, p, ip);
    var r := w.runs[p];
    FinalWrite(r, JournalAt(w, r.command.globalKeySha256), receipt, now);
    ReturnUnfolds(w, p, receipt, now);
    var cl := Confirming(r, receipt, now);
    NextWriteLands(w, p, ip, Finalize(r.command, cl));
    LeadsOn(w0, w, DispatchReturns(p, receipt, now));
    var w1 := Issue(w, p, r.(pc := Concluding(cl, false, false)));
    LandsAndAnswers(w0, w1, p);
    w' := Proceed(Applied(w1, Message(p, Finalize(r.command, cl))), p);
  }

  lemma DispatchIntended(w: World, p: nat, ip: nat)
    requires Inv(w) && Undisturbed(w, p, ip)
    ensures var o := JournalAt(w, w.runs[p].command.globalKeySha256); o.Some? && o.value.intent.Some?
  {
    hide Inv, JournalOk;
    InvAt(w, p);
  }

  /**
    Whatever other runs and messages there are: from every reachable world in which the effect's key is free, a run
    of a valid command can go on to pass with any valid receipt of its dispatch.
   */
  lemma UndisturbedRunPasses(w: World, p: nat, a: nat, receipt: Record, now: int) returns (w': World)
    requires Reachable(w) && p in w.runs && w.runs[p].pc.Begin? && ValidCommand(w.runs[p].command)
    requires w.runs[p].command.globalKeySha256 !in w.table
    requires DispatchReceiptValid(receipt, w.runs[p].command, 12)
    ensures Leads(w, w') && p in w'.runs && w'.runs[p].pc.Passed? && w'.runs[p].pc.closing.providerReceipt == receipt
  {
    hide Reachable, Inv, Leads, Undisturbed, DispatchReceiptValid;
    ReachableInv(w);
    w' := Begins(w, p, a, now);
    w' := DispatchRuns(w, w', p, 0, |BOOTSTRAP|);
    w' := Finishes(w, w', p, |BOOTSTRAP|, receipt, now);
  }
}
