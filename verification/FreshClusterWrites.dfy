/**
  The cluster provider's conditional writes, applied by any number of writers in any order, late or repeatedly.
 */
module FreshClusterWrites {
  import opened Options
  import opened FreshClusterJournal

  datatype Write =
    | Append(command: Command, transition: Record)
    | Finish(command: Command, receipt: Record)
    | Terminalize(command: Command, receipt: Record)

  /** The receipt a write names as its predecessor, and the number of links before it. */
  function Previous(w: Write): Digest
    requires ShapeOk(w)
  {
    match w
    case Append(_, t) => t.previous
    case Finish(_, r) => r.previous
    case Terminalize(_, r) => r.previous
  }

  predicate ShapeOk(w: Write) {
    match w
    case Append(c, t) => t.Transition? && 0 <= t.sequence <= 99 && t.version == t.sequence + 2
    case Finish(c, r) => r.Receipt? && 0 <= r.transitionCount
    case Terminalize(c, r) => r.Receipt? && 0 <= r.transitionCount
  }

  /** The phases along the chain that ends in a receipt: what a writer's `phases` set holds. */
  function PhasesBefore(d: Digest): set<Phase> {
    match d.preimage
    case Transition(_, previous, _, _, phase, _, _) => PhasesBefore(previous) + {phase}
    case _ => {}
  }

  /** A receipt that can stand before link n: the reservation, or transition n - 1. */
  predicate LinkedAfter(d: Digest, n: int) {
    if n == 0 then d.preimage.Reservation? else d.preimage.Transition? && d.preimage.sequence == n - 1
  }

  /** What every writer keeps: it follows a record of its own command and repeats no phase of that record's chain. */
  predicate WellFormed(w: Write) {
    && ShapeOk(w)
    && (Previous(w).preimage.Reservation? || Previous(w).preimage.Transition?)
    && Previous(w).preimage.binding == BindingOf(w.command)
    && match w
       case Append(c, t) =>
         && TransitionFits(t, c, t.sequence, t.previous) && LinkedAfter(t.previous, t.sequence)
         && t.phase !in PhasesBefore(t.previous) && Known(t.phase)
       case Finish(c, r) =>
         && ReceiptFits(r, c, r.transitionCount, r.previous) && LinkedAfter(r.previous, r.transitionCount)
         && r.status in {PASS, PROVIDER_KEYS_REVOCATION_PENDING}
       case Terminalize(c, r) =>
         ReceiptFits(r, c, r.transitionCount, r.previous) && LinkedAfter(r.previous, r.transitionCount)
  }

  predicate Known(p: Phase) {
    !p.UnknownPhase?
  }

  /** The ConditionExpression of each update: version, last receipt and one attribute, nothing more. */
  predicate Condition(w: Write, item: Item) {
    match w
    case Append(_, t) =>
      && t.Transition? && 0 <= t.sequence
      && item.version == Some(N(t.version - 1)) && item.lastReceiptSha256 == Some(S(t.previous))
      && t.sequence !in item.slots
    case Finish(_, r) =>
      && r.Receipt?
      && item.version == Some(N(r.transitionCount + 1)) && item.lastReceiptSha256 == Some(S(r.previous))
      && item.finalReceipt.None?
    case Terminalize(_, r) =>
      && r.Receipt?
      && item.version == Some(N(r.transitionCount + 1)) && item.lastReceiptSha256 == Some(S(r.previous))
      && item.terminalReceipt.None?
  }

  function Updated(w: Write, item: Item): Item
    requires Condition(w, item)
  {
    match w
    case Append(_, t) =>
      item.(slots := item.slots[t.sequence := B(t)], lastReceiptSha256 := Some(S(Sha256(t))),
            state := Some(St(InPhase(t.phase))), transitionCount := Some(N(t.sequence + 1)),
            version := Some(N(t.version)))
    case Finish(_, r) =>
      item.(finalReceipt := Some(B(r)), lastReceiptSha256 := Some(S(Sha256(r))),
            state := Some(St(Closed(r.status))), version := Some(N(r.transitionCount + 2)))
    case Terminalize(_, r) =>
      item.(terminalReceipt := Some(B(r)), lastReceiptSha256 := Some(S(Sha256(r))),
            state := Some(St(Closed(r.status))), version := Some(N(r.transitionCount + 2)))
  }

  /** What one delivery of a request does to the item. */
  function Land(item: Item, w: Write): Item {
    if Condition(w, item) then Updated(w, item) else item
  }

  function Extend(j: Journal, w: Write): Journal {
    match w
    case Append(_, t) => j.(transitions := j.transitions + [t])
    case Finish(_, r) => j.(finalReceipt := Some(r))
    case Terminalize(_, r) => j.(terminalReceipt := Some(r))
  }

  /** A journal of the command whose phases are all ones the controllers name. */
  ghost predicate JournalOk(j: Journal, c: Command) {
    Chained(j, c) && forall i :: 0 <= i < |j.transitions| ==> Known(PhaseOf(j.transitions[i]))
  }

  /**
    Although a condition never looks at the state, the count or the other receipt: on a chained item a well-formed
    write passes it exactly when the journal is open and the write follows its last record.
   */
  lemma ConditionIsCompareLastReceipt(j: Journal, w: Write)
    requires Chained(j, j.command) && WellFormed(w)
    ensures Condition(w, Encode(j)) <==> IsOpen(j) && Previous(w) == LastReceipt(j)
    ensures Condition(w, Encode(j)) <==> Previous(w) == LastReceipt(j)
    ensures Condition(w, Encode(j)) && w.Append? ==> w.transition.sequence == |j.transitions|
    ensures Condition(w, Encode(j)) && !w.Append? ==> w.receipt.transitionCount == |j.transitions|
  {
    hide DistinctPhases;
    var n := |j.transitions|;
    assert forall i: nat :: i in Slots(j.transitions) <==> i < n;
    if n > 0 {
      assert LinkAt(Sha256(j.reservation), j.command, j.transitions, n - 1);
    }
  }

  lemma UpdatedEncodesExtension(j: Journal, w: Write)
    requires Chained(j, j.command) && WellFormed(w) && Condition(w, Encode(j))
    ensures Updated(w, Encode(j)) == Encode(Extend(j, w))
  {
    hide DistinctPhases, Linked;
    ConditionIsCompareLastReceipt(j, w);
    if w.Append? {
      assert Slots(j.transitions + [w.transition]) == Slots(j.transitions)[w.transition.sequence := B(w.transition)];
    }
  }

  /** The phases a writer collected along its chain are the phases of the journal it extends. */
  lemma {:induction false} PhasesAlongChain(root: Digest, c: Command, transitions: seq<Record>)
    requires Linked(root, c, transitions) && root.preimage.Reservation?
    ensures PhasesBefore(TailOf(root, transitions, |transitions|)) == Phases(transitions)
    decreases |transitions|
  {
    var n := |transitions|;
    if n > 0 {
      var front, last := transitions[..n - 1], transitions[n - 1];
      LinkedPrefix(root, c, transitions, n - 1);
      PhasesAlongChain(root, c, front);
      assert LinkAt(root, c, transitions, n - 1);
      assert transitions == front + [last];
      PhasesAppend(front, last);
    }
  }

  lemma LinkedPrefix(root: Digest, c: Command, transitions: seq<Record>, n: nat)
    requires Linked(root, c, transitions) && n <= |transitions|
    ensures Linked(root, c, transitions[..n])
    ensures forall i: nat :: i <= n ==> TailOf(root, transitions[..n], i) == TailOf(root, transitions, i)
  {
    forall i: nat | i < n ensures LinkAt(root, c, transitions[..n], i) {
      assert LinkAt(root, c, transitions, i);
    }
  }

  /** Distinct phases of a finite vocabulary bound the journal, so the reader's cap of 80 is never reached. */
  lemma KnownPhasesBound(transitions: seq<Record>)
    requires DistinctPhases(transitions)
    requires forall i :: 0 <= i < |transitions| ==> Known(PhaseOf(transitions[i]))
    ensures |transitions| <= 51
  {
    DistinctIffManyPhases(transitions);
    forall p | p in Phases(transitions) ensures p in VOCABULARY {
      var t :| t in transitions && PhaseOf(t) == p;
      VocabularyComplete(p);
    }
    SubsetBound(Phases(transitions), VOCABULARY);
    VocabularySize();
  }

  const CLUSTER_PHASES: set<Phase> := {
    CLUSTER_CREATE_DISPATCHING, CLUSTER_CREATE_ACKNOWLEDGEMENT_RECONCILED, CLUSTER_CREATE_OBSERVED,
    CLUSTER_ADOPTION_READBACK_STARTED, CLUSTER_ADOPTION_OBSERVED}

  const INGRESS_PHASES: set<Phase> := {
    RUNNER_EGRESS_OBSERVED, INGRESS_PRESTATE_EMPTY, INGRESS_CREATE_DISPATCHING,
    INGRESS_CREATE_ACKNOWLEDGEMENT_RECONCILED, INGRESS_CREATE_OBSERVED, RUNNER_EGRESS_REOBSERVED_AFTER_INGRESS}

  const SECRET_PHASES: set<Phase> := {
    ADMIN_SECRET_DISPATCHING, ADMIN_SECRET_ACKNOWLEDGEMENT_RECONCILED, ADMIN_SECRET_SEALED,
    LOCAL_ADMIN_CREDENTIAL_DISCARDING, LOCAL_ADMIN_CREDENTIAL_DISCARDED}

  const ADMIN_PHASES: set<Phase> := {
    ADOPTED_ADMIN_USER_PRESTATE_PRESENT, ADMIN_USER_PRESTATE_ABSENT, ADMIN_CREATE_DISPATCHING,
    ADMIN_CREATE_ACKNOWLEDGEMENT_RECONCILED, ADOPTED_ADMIN_USER_OBSERVED, ADMIN_CREATE_OBSERVED, ADMIN_AUTHENTICATED}

  const BOOTSTRAP_PHASES: set<Phase> := {
    RUNNER_EGRESS_REOBSERVED_BEFORE_BOOTSTRAP, BOOTSTRAP_DISPATCHING, BOOTSTRAP_ACCEPTED,
    RECOVERY_SOURCE_AND_PREPARATION_DISPATCHING, RECOVERY_SOURCE_AND_PREPARATION_ACCEPTED,
    RECOVERY_PUBLICATION_APPEND_DISPATCHING}

  const PUBLICATION_PHASES: set<Phase> := {
    RECOVERY_PUBLICATION_APPEND_ACCEPTED, RECOVERY_PUBLICATION_REPLAY_DISPATCHING,
    RECOVERY_PUBLICATION_REPLAY_ACCEPTED, RECOVERY_MANAGED_MCP_REQUEST_PLANNED,
    RECOVERY_MANAGED_MCP_QUERY_ACCEPTED, POST_BOOTSTRAP_SQL_USER_INVENTORY_ACCEPTED}

  const REVOCATION_PHASES: set<Phase> := {
    ADMIN_DELETE_DISPATCHING, ADMIN_DELETE_ACKNOWLEDGEMENT_RECONCILED, ADMIN_DELETE_ABSENT,
    FINAL_PRINCIPAL_CENSUS_ACCEPTED, INGRESS_DELETE_DISPATCHING, INGRESS_DELETE_ACKNOWLEDGEMENT_RECONCILED,
    INGRESS_DELETE_ABSENT, FAILURE_ADMIN_PRESTATE_DISCOVERED}

  const RECOVERY_PHASES: set<Phase> := {
    RECOVERY_CLEANUP_STARTED, RECOVERY_ADMIN_DELETE_DISPATCHING, RECOVERY_ADMIN_DELETE_ACKNOWLEDGEMENT_RECONCILED,
    RECOVERY_ADMIN_DELETE_ABSENT, RECOVERY_INGRESS_DELETE_DISPATCHING,
    RECOVERY_INGRESS_DELETE_ACKNOWLEDGEMENT_RECONCILED, RECOVERY_INGRESS_DELETE_ABSENT, RECOVERY_ACCESS_REVOKED}

  const VOCABULARY: set<Phase> :=
    CLUSTER_PHASES + INGRESS_PHASES + SECRET_PHASES + ADMIN_PHASES +
    BOOTSTRAP_PHASES + PUBLICATION_PHASES + REVOCATION_PHASES + RECOVERY_PHASES

  lemma VocabularyComplete(p: Phase)
    requires Known(p)
    ensures p in VOCABULARY
  {
  }

  lemma UnionBound<T>(a: set<T>, b: set<T>)
    ensures |a + b| <= |a| + |b|
  {
    assert |a + b| == |a| + |b - a| by { assert a + b == a + (b - a); }
    SubsetBound(b - a, b);
  }

  lemma FirstSizes()
    ensures |CLUSTER_PHASES| <= 5 && |INGRESS_PHASES| <= 6 && |SECRET_PHASES| <= 5 && |ADMIN_PHASES| <= 7
  {
  }

  lemma LastSizes()
    ensures |BOOTSTRAP_PHASES| <= 6 && |PUBLICATION_PHASES| <= 6 && |REVOCATION_PHASES| <= 8 && |RECOVERY_PHASES| <= 8
  {
  }

  lemma VocabularySize()
    ensures |VOCABULARY| <= 51
  {
    FirstSizes();
    LastSizes();
    hide CLUSTER_PHASES, INGRESS_PHASES, SECRET_PHASES, ADMIN_PHASES,
      BOOTSTRAP_PHASES, PUBLICATION_PHASES, REVOCATION_PHASES, RECOVERY_PHASES;
    var first := CLUSTER_PHASES + INGRESS_PHASES + SECRET_PHASES + ADMIN_PHASES;
    UnionBound(CLUSTER_PHASES, INGRESS_PHASES);
    UnionBound(CLUSTER_PHASES + INGRESS_PHASES, SECRET_PHASES);
    UnionBound(CLUSTER_PHASES + INGRESS_PHASES + SECRET_PHASES, ADMIN_PHASES);
    UnionBound(first, BOOTSTRAP_PHASES);
    UnionBound(first + BOOTSTRAP_PHASES, PUBLICATION_PHASES);
    UnionBound(first + BOOTSTRAP_PHASES + PUBLICATION_PHASES, REVOCATION_PHASES);
    UnionBound(first + BOOTSTRAP_PHASES + PUBLICATION_PHASES + REVOCATION_PHASES, RECOVERY_PHASES);
  }

  lemma SubsetBound<T>(a: set<T>, b: set<T>)
    requires a <= b
    ensures |a| <= |b|
  {
    assert b == a + (b - a);
  }

  /** Landing a well-formed write keeps a journal sound. */
  lemma ExtensionIsOk(j: Journal, w: Write)
    requires JournalOk(j, w.command) && WellFormed(w) && Condition(w, Encode(j))
    ensures JournalOk(Extend(j, w), w.command)
  {
    hide PhasesBefore, DistinctPhases;
    ConditionIsCompareLastReceipt(j, w);
    if w.Append? {
      var t, root := w.transition, Sha256(j.reservation);
      LinkedAppend(root, j.command, j.transitions, t);
      PhasesAlongChain(root, j.command, j.transitions);
      DistinctAppend(j.transitions, t);
      var ts := j.transitions + [t];
      assert forall i :: 0 <= i < |ts| ==> Known(PhaseOf(ts[i]));
      KnownPhasesBound(ts);
    }
  }
}
