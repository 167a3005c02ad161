/**
  The pure checks of the fresh-primary provider controller: the phase and flag tables, and the validation
  of a journal another run left behind.
 */
module FreshPrimaryController {
  import opened Options
  import opened FreshPrimaryJournal

  const EXPECTED_BOOTSTRAP_PHASES: seq<Phase> := [
    SignerSecretDispatching, SignerSecretSealed, PreflightStarted, PreflightAccepted,
    AdminCredentialDiscarding, AdminCredentialDiscarded, CreateDatabaseDispatching, DatabaseCreated,
    SecurityBootstrapDispatching, SecurityBootstrapped, PostflightStarted, Accepted]

  const EXPECTED_MUTATION_DISPATCH: seq<bool> := [
    true, true, false, false, false, false, true, true, true, true, true, true]

  predicate ConsumptionValid(r: Record, c: Command) {
    ConsumptionFits(r, c) && r.approvalId == c.coordinates.approvalId
  }

  predicate OnTable(t: Record, sequence: nat) {
    && t.Transition? && sequence < |EXPECTED_BOOTSTRAP_PHASES|
    && t.phase == EXPECTED_BOOTSTRAP_PHASES[sequence]
    && t.mutationDispatched == EXPECTED_MUTATION_DISPATCH[sequence]
  }

  /** `validateOutcome`: a known status, bound to the command, whose mutation flag agrees with it. */
  predicate OutcomeValid(o: Record, c: Command) {
    && o.Outcome? && !o.status.UnknownStatus?
    && o.commandSha256 == c.commandSha256 && o.globalKeySha256 == c.globalKeySha256
    && o.operationId == c.coordinates.operationId
    && o.possibleMutation == !o.status.FailedTerminal?
  }

  /** `validateTerminal`. */
  predicate TerminalValid(t: Record, c: Command, outcome: Record, previous: Digest, count: int) {
    && OutcomeValid(outcome, c)
    && t.Terminal? && t.binding == BindingOf(c) && t.outcome == Sha256(outcome)
    && t.previous == previous && t.transitionCount == count && t.version == count + 3
  }

  /** `validateDispatchReceipt`: a full trace, and a receipt that repeats what the command fixed. */
  predicate DispatchReceiptValid(r: Record, c: Command, count: int) {
    && count == |EXPECTED_BOOTSTRAP_PHASES| && r.BootstrapReceipt?
    && r.approvalId == c.coordinates.approvalId && r.operationId == c.coordinates.operationId
    && r.sqlClusterId == c.coordinates.sqlClusterId && r.bindings == c.coordinates.bindings
  }

  ghost predicate FollowsTable(transitions: seq<Record>) {
    && |transitions| <= |EXPECTED_BOOTSTRAP_PHASES|
    && forall i: nat :: i < |transitions| ==> OnTable(transitions[i], i)
  }

  /** What the controller accepts as the journal of an earlier run of the same command. */
  ghost predicate Recoverable(j: Journal, c: Command) {
    && j.command == c && ConsumptionValid(j.consumption, c)
    && j.intent.Some? && IntentFits(j.intent.value, c, Sha256(j.consumption))
    && Linked(Root(j), c, j.transitions) && FollowsTable(j.transitions)
    && (j.closing.Some? ==>
          TerminalValid(j.closing.value.terminal, c, j.closing.value.outcome, Tail(j, |j.transitions|),
                        |j.transitions|))
  }

  /** A journal as `readStrong` returns it, with the summary attributes stored beside it. */
  datatype StoredRecord = StoredRecord(journal: Journal, state: StateName, version: int, lastReceiptSha256: Digest)

  ghost predicate RecordSummaryFits(value: StoredRecord) {
    var j := value.journal;
    && value.version == |j.transitions| + (if j.closing.Some? then 3 else 2)
    && value.lastReceiptSha256 == LastReceipt(j)
    && (j.closing.None? ==> value.state == if |j.transitions| == 0 then INTENT else TRANSITION)
  }

  /**
    `validateOccupiedRecord`: accepts exactly the recoverable journals and returns the last link before any terminal.
   */
  method ValidateOccupiedRecord(value: StoredRecord, command: Command) returns (o: Option<Digest>)
    ensures o.Some? <==> Recoverable(value.journal, command) && RecordSummaryFits(value)
    ensures o.Some? ==> o.value == Tail(value.journal, |value.journal.transitions|)
  {
    var j := value.journal;
    if !(j.command == command && |j.transitions| <= |EXPECTED_BOOTSTRAP_PHASES| &&
         value.version == |j.transitions| + (if j.closing.Some? then 3 else 2)) {
      return None;
    }
    if !ConsumptionValid(j.consumption, command) {
      return None;
    }
    if !(j.intent.Some? && IntentFits(j.intent.value, command, Sha256(j.consumption))) {
      return None;
    }
    var previous := Sha256(j.intent.value);
    var sequence := 0;
    while sequence < |j.transitions|
      invariant 0 <= sequence <= |j.transitions|
      invariant previous == Tail(j, sequence)
      invariant forall i: nat :: i < sequence ==>
                  LinkAt(Root(j), command, j.transitions, i) && OnTable(j.transitions[i], i)
    {
      assert previous == TailOf(Root(j), j.transitions, sequence);
      if !(TransitionFits(j.transitions[sequence], command, sequence, previous) &&
           OnTable(j.transitions[sequence], sequence)) {
        assert !LinkAt(Root(j), command, j.transitions, sequence) || !OnTable(j.transitions[sequence], sequence);
        return None;
      }
      previous := Sha256(j.transitions[sequence]);
      sequence := sequence + 1;
    }
    var last := if j.closing.Some? then Sha256(j.closing.value.terminal) else previous;
    if value.lastReceiptSha256 != last {
      return None;
    }
    if j.closing.Some? {
      if !TerminalValid(j.closing.value.terminal, command, j.closing.value.outcome, previous, |j.transitions|) {
        return None;
      }
    } else if value.state != (if |j.transitions| == 0 then INTENT else TRANSITION) {
      return None;
    }
    o := Some(previous);
  }
}
