/**
  What the fresh-primary protocol is for: the reader never rejects what the writers wrote, a terminal fences
  every run, a physical effect is dispatched once, and recovery is final.
 */
module FreshPrimaryTheorems {
  import opened Options
  import opened FreshPrimaryJournal
  import opened FreshPrimaryController
  import opened FreshPrimaryProtocol
  import opened FreshPrimarySafety

  // ----- The reader accepts what the writers wrote --------------------------------------------

  /**
    In every reachable world each item is one the strict reader accepts, for exactly one valid command; and the
    controller's own validation accepts the journal exactly from the intent on.
   */
  lemma ReachableItemsAreAccepted(w: World, key: Digest)
    requires Reachable(w) && key in w.table
    ensures var j := Decode(w.table[key]);
      && ValidCommand(j.command) && j.command.globalKeySha256 == key
      && Stores(w.table[key], j, FullRequest(j.command)) && Stores(w.table[key], j, PartialRequest(j.command))
      && FollowsTable(j.transitions)
      && var found := StoredRecord(j, StateOf(j), VersionOf(j), LastReceipt(j));
         (Recoverable(j, j.command) && RecordSummaryFits(found) <==> j.intent.Some?)
  {
    ReachableInv(w);
    DecodeOk(w.table[key], key);
    var j := Decode(w.table[key]);
    assert Chained(j, PartialRequest(j.command));
  }

  // ----- Fencing ------------------------------------------------------------------------------

  /**
    Once a terminal is stored the item never changes again, whatever any run does. If it was not a confirmation
    no run of that key ever passes, and no run's view ever reaches beyond the closed chain.
   */
  lemma TerminalFencesEveryRun(w: World, key: Digest, events: seq<Event>)
    requires Reachable(w) && Feasible(w, events)
    requires key in w.table && w.table[key].state == Some(St(TERMINAL))
    ensures var w' := After(w, events); var j := Decode(w.table[key]);
      && key in w'.table && w'.table[key] == w.table[key]
      && j.closing.Some? && j.closing.value.outcome.Outcome?
      && forall p :: p in w'.runs && w'.runs[p].command.globalKeySha256 == key ==> Fenced(w'.runs[p], j)
  {
    hide Inv, Reachable, Feasible, After, JournalOk, RunOk, Fenced;
    ReachableInv(w);
    RunsKeepInv(w, events);
    var w', j := After(w, events), Decode(w.table[key]);
    ClosedJournal(w, key);
    ItemFollowsJournal(w, w', key);
    forall p | p in w'.runs && w'.runs[p].command.globalKeySha256 == key ensures Fenced(w'.runs[p], j) {
      InvAt(w', p);
      RunOkFenced(w'.runs[p], j);
    }
  }

  /** A run that a closed journal has overtaken: it passes only on a confirmation and sees nothing beyond the chain. */
  ghost predicate Fenced(r: Run, j: Journal)
    requires j.closing.Some? && j.closing.value.outcome.Outcome?
  {
    && (r.pc.Passed? ==> j.closing.value.outcome.status.Confirmed?)
    && (r.pc.Dispatching? ==> r.pc.view.sequence <= |j.transitions|)
  }

  lemma RunOkFenced(r: Run, j: Journal)
    requires RunOk(r, Some(j)) && j.closing.Some? && j.closing.value.outcome.Outcome?
    ensures Fenced(r, j)
  {
  }

  lemma ClosedJournal(w: World, key: Digest)
    requires Inv(w) && key in w.table && w.table[key].state == Some(St(TERMINAL))
    ensures var j := Decode(w.table[key]); j.closing.Some? && j.closing.value.outcome.Outcome?
  {
    hide RunOk, MessageOk, EffectOk;
    DecodeOk(w.table[key], key);
  }

  lemma ItemFollowsJournal(w: World, w': World, key: Digest)
    requires Inv(w) && Inv(w') && Progress(w, w') && key in w.table && Decode(w.table[key]).closing.Some?
    ensures key in w'.table && w'.table[key] == w.table[key]
  {
    hide RunOk, MessageOk, EffectOk, JournalOk, Contains;
    assert GrowsOption(JournalAt(w, key), JournalAt(w', key));
    DecodeOk(w.table[key], key);
    DecodeOk(w'.table[key], key);
  }

  /**
    A finalise computed from any view, however stale, either fails its condition or closes the chain at exactly
    the length and last receipt it names.
   */
  lemma FinalizeClosesAtItsOwnLength(w: World, m: Message)
    requires Reachable(w) && m in w.sent && m.write.Finalize?
    requires KeyOf(m.write) in w.table
    ensures m.write.closing.terminal.Terminal?
    ensures var terminal := m.write.closing.terminal; var j := Decode(w.table[KeyOf(m.write)]);
      Condition(m.write, Some(w.table[KeyOf(m.write)])) ==>
        && j.closing.None? && |j.transitions| == terminal.transitionCount
        && LastReceipt(j) == terminal.previous && j.command == m.write.command
  {
    ReachableInv(w);
    SentInv(w, m);
    var item := w.table[KeyOf(m.write)];
    DecodeOk(item, KeyOf(m.write));
    var j := Decode(item);
    ConditionIsCompareLastReceipt(j, FullRequest(j.command), m.write);
    if Condition(m.write, Some(item)) {
      SameCommand(j, m.write);
    }
  }

  // ----- One shot -----------------------------------------------------------------------------

  /** What two runs over one key that both dispatched have in common. */
  lemma DispatchersShare(w: World, p: nat, q: nat)
    requires Inv(w) && p in w.runs && q in w.runs && w.runs[p].dispatched && w.runs[q].dispatched
    requires w.runs[p].command.globalKeySha256 == w.runs[q].command.globalKeySha256
    ensures w.runs[p].command == w.runs[q].command && w.runs[p].attempt.Some? && w.runs[p].announced.Some?
    ensures w.runs[p].attempt == w.runs[q].attempt && w.runs[p].announced == w.runs[q].announced
  {
    InvAt(w, p);
    InvAt(w, q);
  }

  /**
    Over all commands that name the same provider and SQL cluster, whatever their operation or approval: two runs
    that both enter dispatch belong to one command and wrote byte-identical consumption and intent records.
   */
  lemma DispatchersShareRecords(w: World, p: nat, q: nat)
    requires Reachable(w) && p in w.runs && q in w.runs
    requires w.runs[p].dispatched && w.runs[q].dispatched
    requires w.runs[p].command.coordinates.providerClusterId == w.runs[q].command.coordinates.providerClusterId
    requires w.runs[p].command.coordinates.sqlClusterId == w.runs[q].command.coordinates.sqlClusterId
    ensures w.runs[p].command == w.runs[q].command
    ensures w.runs[p].attempt == w.runs[q].attempt && w.runs[p].announced == w.runs[q].announced
  {
    ReachableInv(w);
    InvAt(w, p);
    InvAt(w, q);
    DispatchersShare(w, p, q);
  }

  /** No two attempts wrote the same pair of records: they differ in the consumption or, later, in the intent. */
  ghost predicate DistinctAttempts(w: World) {
    forall p, q :: p in w.runs && q in w.runs && p != q && w.runs[p].attempt.Some? && w.runs[p].announced.Some? ==>
      w.runs[p].attempt != w.runs[q].attempt || w.runs[p].announced != w.runs[q].announced
  }

  /** One shot per physical effect: of all runs that could touch one cluster pair at most one ever enters dispatch. */
  lemma OneShot(w: World, p: nat, q: nat)
    requires Reachable(w) && DistinctAttempts(w) && p in w.runs && q in w.runs
    requires w.runs[p].dispatched && w.runs[q].dispatched
    requires w.runs[p].command.coordinates.providerClusterId == w.runs[q].command.coordinates.providerClusterId
    requires w.runs[p].command.coordinates.sqlClusterId == w.runs[q].command.coordinates.sqlClusterId
    ensures p == q
  {
    ReachableInv(w);
    InvAt(w, p);
    DispatchersShareRecords(w, p, q);
  }

  /** A run that has not read yet, or has found the item occupied, and so will never consume. */
  ghost predicate Late(w: World, p: nat) {
    && p in w.runs && w.runs[p].command.globalKeySha256 in w.table
    && w.runs[p].attempt.None? && !w.runs[p].consumed && !w.runs[p].dispatched
    && (w.runs[p].pc.Begin? || w.runs[p].pc.Occupied? || w.runs[p].pc.Passed? || w.runs[p].pc.Rejected? ||
        (w.runs[p].pc.Concluding? && w.runs[p].pc.recovering))
  }

  lemma LateStaysLate(w: World, e: Event, p: nat)
    requires Inv(w) && Enabled(w, e) && Late(w, p)
    ensures Late(Step(w, e), p)
  {
    hide Inv, Condition, Updated, JournalAt, Recoverable, Acceptable, BOOTSTRAP, RecordSummaryFits,
      DispatchReceiptValid;
  }

  /** A run that starts once the effect's item exists never dispatches, whatever its command: at most it recovers. */
  lemma LaterRunsNeverDispatch(w: World, events: seq<Event>, p: nat)
    requires Reachable(w) && Feasible(w, events) && p in w.runs && w.runs[p].pc.Begin?
    requires w.runs[p].command.globalKeySha256 in w.table
    ensures p in After(w, events).runs && !After(w, events).runs[p].dispatched && After(w, events).runs[p].attempt.None?
  {
    ReachableInv(w);
    InvAt(w, p);
    LateForever(w, events, p);
  }

  lemma {:induction false} LateForever(w: World, events: seq<Event>, p: nat)
    requires Inv(w) && Feasible(w, events) && Late(w, p)
    ensures Late(After(w, events), p)
    decreases |events|
  {
    hide Inv, Step, Enabled, Late;
    if events != [] {
      EventKeepsInv(w, events[0]);
      LateStaysLate(w, events[0], p);
      LateForever(Step(w, events[0]), events[1..], p);
    }
  }

  // ----- Write-ahead --------------------------------------------------------------------------

  /**
    The signer put, the credential discard, CREATE DATABASE and the security bootstrap happen only when the run's
    own consumption, its intent and the effect's own dispatch phase are durable, behind a prefix of the phase table.
   */
  lemma EffectsAreWrittenAhead(w: World, h: Happening)
    requires Reachable(w) && h in w.effects
    ensures h.run in w.runs && w.runs[h.run].command.globalKeySha256 in w.table
    ensures var r := w.runs[h.run]; var j := Decode(w.table[r.command.globalKeySha256]);
      && j.command == r.command && r.attempt == Some(j.consumption) && j.intent.Some?
      && Announced(j, h.effect) && FollowsTable(j.transitions)
  {
    ReachableInv(w);
    assert EffectOk(h, w);
    InvAt(w, h.run);
  }

  // ----- Recovery -----------------------------------------------------------------------------

  /** A run that passed holds the stored closing, a confirmation of all twelve phases. */
  lemma PassedIsStored(w: World, p: nat)
    requires Reachable(w) && p in w.runs && w.runs[p].pc.Passed?
    ensures w.runs[p].command.globalKeySha256 in w.table
    ensures var j := Decode(w.table[w.runs[p].command.globalKeySha256]); var cl := w.runs[p].pc.closing;
      && j.closing == Some(cl) && JournalOk(j, w.runs[p].command.globalKeySha256)
      && cl.outcome.Outcome? && cl.outcome.status.Confirmed?
  {
    hide JournalOk, MessageOk, EffectOk;
    ReachableInv(w);
    InvAt(w, p);
    DecodeOk(w.table[w.runs[p].command.globalKeySha256], w.runs[p].command.globalKeySha256);
  }

  lemma ConfirmedIsComplete(j: Journal, key: Digest)
    requires JournalOk(j, key) && j.closing.Some?
    requires j.closing.value.outcome.Outcome? && j.closing.value.outcome.status.Confirmed?
    ensures |j.transitions| == 12 && DispatchReceiptValid(j.closing.value.providerReceipt, j.command, 12)
    ensures j.command == BuildCommand(j.command.coordinates)
  {
  }

  /** PASS is final: it names a stored confirmation of all twelve phases, the same one for every run of the key. */
  lemma PassIsFinal(w: World, p: nat, q: nat)
    requires Reachable(w) && p in w.runs && q in w.runs
    requires w.runs[p].pc.Passed? && w.runs[q].pc.Passed?
    requires w.runs[p].command.globalKeySha256 == w.runs[q].command.globalKeySha256
    ensures w.runs[p].pc.closing == w.runs[q].pc.closing
    ensures w.runs[p].command.globalKeySha256 in w.table
    ensures var j := Decode(w.table[w.runs[p].command.globalKeySha256]); var cl := w.runs[p].pc.closing;
      && j.closing == Some(cl)
      && cl.outcome.Outcome? && cl.outcome.status.Confirmed? && |j.transitions| == 12
      && DispatchReceiptValid(cl.providerReceipt, j.command, 12) && j.command == BuildCommand(j.command.coordinates)
  {
    hide *;
    PassedIsStored(w, p);
    PassedIsStored(w, q);
    ConfirmedIsComplete(Decode(w.table[w.runs[p].command.globalKeySha256]), w.runs[p].command.globalKeySha256);
  }

  /** A stored failure that claims no mutation closed a journal with no phase in it. */
  lemma FailedTerminalRecordedNothing(w: World, key: Digest)
    requires Reachable(w) && key in w.table
    requires var cl := Decode(w.table[key]).closing;
      cl.Some? && cl.value.outcome.Outcome? && cl.value.outcome.status.FailedTerminal?
    ensures Decode(w.table[key]).transitions == [] && Decode(w.table[key]).intent.Some?
  {
    ReachableInv(w);
    DecodeOk(w.table[key], key);
  }
}
