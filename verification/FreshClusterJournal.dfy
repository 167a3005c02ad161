/**
  The fresh-cluster journal item. Its writers test less than the fresh-primary ones: only the version, the last
  receipt and one attribute. What keeps the two kinds of receipt exclusive, and the journal readable, is that a
  writer can only ever name a reservation or a transition as the record it follows.
 */
module FreshClusterJournal {
  import opened Options

  datatype Phase =
    | CLUSTER_CREATE_DISPATCHING | CLUSTER_CREATE_ACKNOWLEDGEMENT_RECONCILED | CLUSTER_CREATE_OBSERVED
    | CLUSTER_ADOPTION_READBACK_STARTED | CLUSTER_ADOPTION_OBSERVED
    | RUNNER_EGRESS_OBSERVED | INGRESS_PRESTATE_EMPTY
    | INGRESS_CREATE_DISPATCHING | INGRESS_CREATE_ACKNOWLEDGEMENT_RECONCILED | INGRESS_CREATE_OBSERVED
    | RUNNER_EGRESS_REOBSERVED_AFTER_INGRESS
    | ADMIN_SECRET_DISPATCHING | ADMIN_SECRET_ACKNOWLEDGEMENT_RECONCILED | ADMIN_SECRET_SEALED
    | LOCAL_ADMIN_CREDENTIAL_DISCARDING | LOCAL_ADMIN_CREDENTIAL_DISCARDED
    | ADOPTED_ADMIN_USER_PRESTATE_PRESENT | ADMIN_USER_PRESTATE_ABSENT
    | ADMIN_CREATE_DISPATCHING | ADMIN_CREATE_ACKNOWLEDGEMENT_RECONCILED
    | ADOPTED_ADMIN_USER_OBSERVED | ADMIN_CREATE_OBSERVED | ADMIN_AUTHENTICATED
    | RUNNER_EGRESS_REOBSERVED_BEFORE_BOOTSTRAP | BOOTSTRAP_DISPATCHING | BOOTSTRAP_ACCEPTED
    | RECOVERY_SOURCE_AND_PREPARATION_DISPATCHING | RECOVERY_SOURCE_AND_PREPARATION_ACCEPTED
    | RECOVERY_PUBLICATION_APPEND_DISPATCHING | RECOVERY_PUBLICATION_APPEND_ACCEPTED
    | RECOVERY_PUBLICATION_REPLAY_DISPATCHING | RECOVERY_PUBLICATION_REPLAY_ACCEPTED
    | RECOVERY_MANAGED_MCP_REQUEST_PLANNED | RECOVERY_MANAGED_MCP_QUERY_ACCEPTED
    | POST_BOOTSTRAP_SQL_USER_INVENTORY_ACCEPTED
    | ADMIN_DELETE_DISPATCHING | ADMIN_DELETE_ACKNOWLEDGEMENT_RECONCILED | ADMIN_DELETE_ABSENT
    | FINAL_PRINCIPAL_CENSUS_ACCEPTED
    | INGRESS_DELETE_DISPATCHING | INGRESS_DELETE_ACKNOWLEDGEMENT_RECONCILED | INGRESS_DELETE_ABSENT
    | FAILURE_ADMIN_PRESTATE_DISCOVERED
    | RECOVERY_CLEANUP_STARTED
    | RECOVERY_ADMIN_DELETE_DISPATCHING | RECOVERY_ADMIN_DELETE_ACKNOWLEDGEMENT_RECONCILED
    | RECOVERY_ADMIN_DELETE_ABSENT
    | RECOVERY_INGRESS_DELETE_DISPATCHING | RECOVERY_INGRESS_DELETE_ACKNOWLEDGEMENT_RECONCILED
    | RECOVERY_INGRESS_DELETE_ABSENT
    | RECOVERY_ACCESS_REVOKED
    | UnknownPhase(name: nat)

  datatype Status =
    | PASS | PROVIDER_KEYS_REVOCATION_PENDING
    | FAILED_CLUSTER_RETAINED_NO_AUTOMATIC_TEARDOWN | FAILED_CLUSTER_RETAINED_ACCESS_REVOKED
    | UnknownStatus(name: nat)

  datatype Digest = Sha256(preimage: Record)

  datatype Mode = CREATE_NEW | ADOPT_VERIFIED_EXISTING

  datatype Command = Command(clusterMode: Mode, operationId: nat, controllerTableArn: nat, globalKeySha256: nat,
                             commandSha256: nat, bindings: nat)

  datatype Binding = Binding(commandSha256: nat, controllerTableArn: nat, globalKeySha256: nat, operationId: nat)

  datatype Record =
    | CommandRecord(command: Command)
    | Reservation(binding: Binding, authentication: nat, reservedAt: int, version: int)
    | Transition(binding: Binding, previous: Digest, sequence: int, version: int,
                 phase: Phase, mutationDispatched: bool, payload: nat)
    | Receipt(commandSha256: nat, operationId: nat, previous: Digest, transitionCount: int, status: Status,
              adminSqlPrincipalAbsent: bool, ingressEmpty: bool, adminSecretVersionRetained: bool)

  function BindingOf(c: Command): Binding {
    Binding(c.commandSha256, c.controllerTableArn, c.globalKeySha256, c.operationId)
  }

  // ----- Items --------------------------------------------------------------------------------

  datatype StateName = RESERVED | InPhase(phase: Phase) | Closed(status: Status)

  datatype Value =
    | S(digest: Digest) | Id(id: nat) | St(state: StateName) | FreshClusterV1 | N(number: int) | B(record: Record)

  type Attribute = Option<Value>

  datatype Item = Item(
    pk: Attribute, entity: Attribute, command: Attribute, commandSha256: Attribute, operationId: Attribute,
    globalKeySha256: Attribute, reservation: Attribute, lastReceiptSha256: Attribute, state: Attribute,
    transitionCount: Attribute, version: Attribute, slots: map<nat, Value>,
    finalReceipt: Attribute, terminalReceipt: Attribute, foreign: map<nat, Value>)

  /** `globalKeyAttribute` is carried because the reader demands the attribute but never compares it. */
  datatype Journal = Journal(command: Command, globalKeyAttribute: Value, reservation: Record, transitions: seq<Record>,
                             finalReceipt: Option<Record>, terminalReceipt: Option<Record>)

  function TailOf(root: Digest, transitions: seq<Record>, n: nat): Digest
    requires n <= |transitions|
  {
    if n > 0 then Sha256(transitions[n - 1]) else root
  }

  /** The receipt that stands before link n. */
  function Tail(j: Journal, n: nat): Digest
    requires n <= |j.transitions|
  {
    TailOf(Sha256(j.reservation), j.transitions, n)
  }

  predicate IsOpen(j: Journal) {
    j.finalReceipt.None? && j.terminalReceipt.None?
  }

  function LastReceipt(j: Journal): Digest {
    if j.finalReceipt.Some? then Sha256(j.finalReceipt.value)
    else if j.terminalReceipt.Some? then Sha256(j.terminalReceipt.value)
    else Tail(j, |j.transitions|)
  }

  function StatusOf(r: Record): Status {
    if r.Receipt? then r.status else UnknownStatus(0)
  }

  function PhaseOf(r: Record): Phase {
    if r.Transition? then r.phase else UnknownPhase(0)
  }

  function StateOf(j: Journal): StateName {
    if j.finalReceipt.Some? then Closed(StatusOf(j.finalReceipt.value))
    else if j.terminalReceipt.Some? then Closed(StatusOf(j.terminalReceipt.value))
    else if |j.transitions| == 0 then RESERVED
    else InPhase(PhaseOf(j.transitions[|j.transitions| - 1]))
  }

  function VersionOf(j: Journal): int {
    |j.transitions| + (if IsOpen(j) then 1 else 2)
  }

  function Slots(transitions: seq<Record>): map<nat, Value> {
    map i: nat | i < |transitions| :: B(transitions[i])
  }

  function BytesOf(r: Option<Record>): Attribute {
    if r.Some? then Some(B(r.value)) else None
  }

  function Encode(j: Journal): Item {
    Item(Some(Id(j.command.globalKeySha256)), Some(FreshClusterV1), Some(B(CommandRecord(j.command))),
         Some(Id(j.command.commandSha256)), Some(Id(j.command.operationId)), Some(j.globalKeyAttribute),
         Some(B(j.reservation)), Some(S(LastReceipt(j))), Some(St(StateOf(j))),
         Some(N(|j.transitions|)), Some(N(VersionOf(j))), Slots(j.transitions),
         BytesOf(j.finalReceipt), BytesOf(j.terminalReceipt), map[])
  }

  lemma EncodeInjective(j: Journal, k: Journal)
    requires Encode(j) == Encode(k)
    ensures j == k
  {
    var slots := Slots(j.transitions);
    assert slots == Slots(k.transitions);
    forall i: nat | i < |j.transitions| ensures j.transitions[i] == k.transitions[i] {
      assert slots[i] == B(j.transitions[i]) == B(k.transitions[i]);
    }
  }

  // ----- The strict reader --------------------------------------------------------------------

  predicate ReservationFits(r: Record, c: Command) {
    r.Reservation? && r.binding == BindingOf(c) && r.version == 1
  }

  predicate TransitionFits(r: Record, c: Command, sequence: int, previous: Digest) {
    && r.Transition? && r.binding == BindingOf(c) && r.previous == previous
    && r.sequence == sequence && r.version == sequence + 2
  }

  predicate ReceiptFits(r: Record, c: Command, count: int, previous: Digest) {
    && r.Receipt? && r.commandSha256 == c.commandSha256 && r.operationId == c.operationId
    && r.previous == previous && r.transitionCount == count
  }

  ghost predicate LinkAt(root: Digest, c: Command, transitions: seq<Record>, i: nat)
    requires i < |transitions|
  {
    TransitionFits(transitions[i], c, i, TailOf(root, transitions, i))
  }

  ghost predicate Linked(root: Digest, c: Command, transitions: seq<Record>) {
    forall i: nat :: i < |transitions| ==> LinkAt(root, c, transitions, i)
  }

  function Phases(transitions: seq<Record>): set<Phase> {
    set t <- transitions :: PhaseOf(t)
  }

  /** No phase is recorded twice. */
  ghost predicate DistinctPhases(transitions: seq<Record>) {
    forall i, k :: 0 <= i < k < |transitions| ==> PhaseOf(transitions[i]) != PhaseOf(transitions[k])
  }

  ghost predicate Chained(j: Journal, c: Command) {
    && j.command == c && ReservationFits(j.reservation, c)
    && |j.transitions| <= 80
    && Linked(Sha256(j.reservation), c, j.transitions) && DistinctPhases(j.transitions)
    && (j.finalReceipt.None? || j.terminalReceipt.None?)
    && (j.finalReceipt.Some? ==>
          && ReceiptFits(j.finalReceipt.value, c, |j.transitions|, Tail(j, |j.transitions|))
          && j.finalReceipt.value.status in {PASS, PROVIDER_KEYS_REVOCATION_PENDING})
    && (j.terminalReceipt.Some? ==> ReceiptFits(j.terminalReceipt.value, c, |j.transitions|, Tail(j, |j.transitions|)))
  }

  ghost predicate Stores(item: Item, j: Journal, c: Command) {
    Chained(j, c) && item == Encode(j)
  }

  ghost predicate Acceptable(item: Item, c: Command) {
    exists j :: Stores(item, j, c)
  }

  ghost predicate SlotChain(slots: map<nat, Value>, c: Command, root: Digest, transitions: seq<Record>) {
    && Linked(root, c, transitions)
    && forall i: nat :: i < |transitions| ==> i in slots && slots[i] == B(transitions[i])
  }

  lemma SlotChainsAgree(slots: map<nat, Value>, c: Command, root: Digest, ts: seq<Record>, us: seq<Record>)
    requires SlotChain(slots, c, root, ts) && SlotChain(slots, c, root, us) && |ts| <= |us|
    ensures ts == us[..|ts|]
  {
    forall i: nat | i < |ts| ensures ts[i] == us[i] {
      assert slots[i] == B(ts[i]) == B(us[i]);
    }
  }

  lemma NextSlotFits(slots: map<nat, Value>, c: Command, root: Digest, ts: seq<Record>, us: seq<Record>)
    requires SlotChain(slots, c, root, ts) && SlotChain(slots, c, root, us) && |ts| < |us|
    ensures |ts| in slots && slots[|ts|] == B(us[|ts|])
    ensures TransitionFits(us[|ts|], c, |ts|, TailOf(root, ts, |ts|))
  {
    SlotChainsAgree(slots, c, root, ts, us);
    assert LinkAt(root, c, us, |ts|);
  }

  lemma LinkedAppend(root: Digest, c: Command, transitions: seq<Record>, t: Record)
    requires Linked(root, c, transitions)
    requires TransitionFits(t, c, |transitions|, TailOf(root, transitions, |transitions|))
    ensures Linked(root, c, transitions + [t])
  {
    forall i: nat | i <= |transitions| ensures LinkAt(root, c, transitions + [t], i) {
      assert TailOf(root, transitions + [t], i) == TailOf(root, transitions, i);
      assert i < |transitions| ==> LinkAt(root, c, transitions, i);
    }
  }

  lemma SlotChainAppend(slots: map<nat, Value>, c: Command, root: Digest, ts: seq<Record>, t: Record)
    requires SlotChain(slots, c, root, ts)
    requires |ts| in slots && slots[|ts|] == B(t) && TransitionFits(t, c, |ts|, TailOf(root, ts, |ts|))
    ensures SlotChain(slots, c, root, ts + [t])
  {
    LinkedAppend(root, c, ts, t);
    var us := ts + [t];
    forall i: nat | i < |us| ensures i in slots && slots[i] == B(us[i]) {
      if i < |ts| {
        assert us[i] == ts[i];
      }
    }
  }

  /** The reader's loop over the slots. */
  method ParseTransitions(slots: map<nat, Value>, command: Command, root: Digest, count: nat)
    returns (o: Option<seq<Record>>)
    ensures o.Some? ==> |o.value| == count && SlotChain(slots, command, root, o.value)
    ensures forall ts :: |ts| == count && SlotChain(slots, command, root, ts) ==> o == Some(ts)
  {
    var transitions: seq<Record> := [];
    var previous := root;
    var sequence := 0;
    while sequence < count
      invariant 0 <= sequence == |transitions| <= count
      invariant previous == TailOf(root, transitions, sequence)
      invariant SlotChain(slots, command, root, transitions)
    {
      forall ts | |ts| == count && SlotChain(slots, command, root, ts)
        ensures sequence in slots && slots[sequence] == B(ts[sequence])
        ensures TransitionFits(ts[sequence], command, sequence, previous)
      {
        NextSlotFits(slots, command, root, transitions, ts);
      }
      if !(sequence in slots && slots[sequence].B? &&
           TransitionFits(slots[sequence].record, command, sequence, previous)) {
        return None;
      }
      var transition := slots[sequence].record;
      SlotChainAppend(slots, command, root, transitions, transition);
      transitions := transitions + [transition];
      previous := Sha256(transition);
      sequence := sequence + 1;
    }
    forall ts | |ts| == count && SlotChain(slots, command, root, ts) ensures ts == transitions {
      SlotChainsAgree(slots, command, root, ts, transitions);
    }
    o := Some(transitions);
  }

  lemma PhasesAppend(front: seq<Record>, t: Record)
    ensures Phases(front + [t]) == Phases(front) + {PhaseOf(t)}
  {
    forall r ensures r in front + [t] <==> r in front || r == t {}
  }

  /** A transition may join a distinct sequence exactly when its phase is new. */
  lemma DistinctAppend(front: seq<Record>, t: Record)
    ensures DistinctPhases(front + [t]) <==> DistinctPhases(front) && PhaseOf(t) !in Phases(front)
  {
    var all := front + [t];
    if DistinctPhases(all) {
      forall i, k | 0 <= i < k < |front| ensures PhaseOf(front[i]) != PhaseOf(front[k]) {
        assert PhaseOf(all[i]) != PhaseOf(all[k]);
      }
      forall r | r in front ensures PhaseOf(r) != PhaseOf(t) {
        var i :| 0 <= i < |front| && front[i] == r;
        assert PhaseOf(all[i]) != PhaseOf(all[|front|]);
      }
    } else {
      var i, k :| 0 <= i < k < |all| && PhaseOf(all[i]) == PhaseOf(all[k]);
      assert front[i] in front;
    }
  }

  /** The reader's distinctness test: as many phase names as transitions. */
  lemma {:induction false} DistinctIffManyPhases(transitions: seq<Record>)
    ensures |Phases(transitions)| <= |transitions|
    ensures |Phases(transitions)| == |transitions| <==> DistinctPhases(transitions)
  {
    var n := |transitions|;
    if n > 0 {
      hide DistinctPhases, Phases;
      var front, last := transitions[..n - 1], transitions[n - 1];
      assert transitions == front + [last];
      DistinctIffManyPhases(front);
      PhasesAppend(front, last);
      DistinctAppend(front, last);
    }
  }

  function RecordAt(a: Attribute): Option<Record> {
    if a.Some? && a.value.B? then Some(a.value.record) else None
  }

  datatype Header = Header(reservation: Record, globalKeyAttribute: Value, count: nat,
                           finalReceipt: Option<Record>, terminalReceipt: Option<Record>)

  predicate HeaderFits(item: Item, c: Command, h: Header) {
    && item.pk == Some(Id(c.globalKeySha256)) && item.entity == Some(FreshClusterV1)
    && item.commandSha256 == Some(Id(c.commandSha256)) && item.operationId == Some(Id(c.operationId))
    && item.command == Some(B(CommandRecord(c)))
    && item.reservation == Some(B(h.reservation)) && ReservationFits(h.reservation, c)
    && item.transitionCount == Some(N(h.count)) && h.count <= 80
    && item.finalReceipt == BytesOf(h.finalReceipt) && item.terminalReceipt == BytesOf(h.terminalReceipt)
    && (h.finalReceipt.None? || h.terminalReceipt.None?)
    && item.globalKeySha256 == Some(h.globalKeyAttribute)
  }

  method ParseHeader(item: Item, c: Command) returns (o: Option<Header>)
    ensures o.Some? ==> HeaderFits(item, c, o.value)
    ensures forall h :: HeaderFits(item, c, h) ==> o == Some(h)
  {
    var reservation := RecordAt(item.reservation);
    if !(reservation.Some? && item.globalKeySha256.Some? &&
         item.transitionCount.Some? && item.transitionCount.value.N? && 0 <= item.transitionCount.value.number) {
      return None;
    }
    var h := Header(reservation.value, item.globalKeySha256.value, item.transitionCount.value.number,
                    RecordAt(item.finalReceipt), RecordAt(item.terminalReceipt));
    if !HeaderFits(item, c, h) {
      return None;
    }
    o := Some(h);
  }

  predicate SummaryFits(item: Item, j: Journal) {
    var n := |j.transitions|;
    && item.version == Some(N(VersionOf(j))) && item.state == Some(St(StateOf(j)))
    && item.lastReceiptSha256 == Some(S(LastReceipt(j)))
    && (j.finalReceipt.Some? ==>
          && ReceiptFits(j.finalReceipt.value, j.command, n, Tail(j, n))
          && j.finalReceipt.value.status in {PASS, PROVIDER_KEYS_REVOCATION_PENDING})
    && (j.terminalReceipt.Some? ==> ReceiptFits(j.terminalReceipt.value, j.command, n, Tail(j, n)))
    && item.slots.Keys == Slots(j.transitions).Keys && item.foreign == map[]
  }

  lemma StoredParts(item: Item, j: Journal, c: Command)
    requires Stores(item, j, c)
    ensures HeaderFits(item, c,
              Header(j.reservation, j.globalKeyAttribute, |j.transitions|, j.finalReceipt, j.terminalReceipt))
    ensures SlotChain(item.slots, c, Sha256(j.reservation), j.transitions) && DistinctPhases(j.transitions)
    ensures SummaryFits(item, j)
  {
  }

  lemma PartsAreStored(item: Item, j: Journal, c: Command)
    requires j.command == c
    requires HeaderFits(item, c,
              Header(j.reservation, j.globalKeyAttribute, |j.transitions|, j.finalReceipt, j.terminalReceipt))
    requires SlotChain(item.slots, c, Sha256(j.reservation), j.transitions) && DistinctPhases(j.transitions)
    requires SummaryFits(item, j)
    ensures Stores(item, j, c)
  {
    assert item.slots == Slots(j.transitions);
  }

  /** `parseStored`: accepts an item iff it is the encoding of a chained journal of this command, and returns it. */
  method ParseStored(item: Item, c: Command) returns (o: Option<Journal>)
    ensures o.Some? <==> Acceptable(item, c)
    ensures o.Some? ==> Stores(item, o.value, c)
  {
    ghost var legit := Acceptable(item, c);
    ghost var j0: Journal :| legit ==> Stores(item, j0, c);
    if legit {
      StoredParts(item, j0, c);
    }
    hide Stores, Acceptable;
    var header := ParseHeader(item, c);
    if header.None? {
      return None;
    }
    var h := header.value;
    var transitions := ParseTransitions(item.slots, c, Sha256(h.reservation), h.count);
    if transitions.None? {
      return None;
    }
    DistinctIffManyPhases(transitions.value);
    if |Phases(transitions.value)| != |transitions.value| {
      return None;
    }
    var j := Journal(c, h.globalKeyAttribute, h.reservation, transitions.value, h.finalReceipt, h.terminalReceipt);
    if !SummaryFits(item, j) {
      assert legit ==> j0.command == c;
      return None;
    }
    PartsAreStored(item, j, c);
    AcceptableIf(item, j, c);
    o := Some(j);
  }

  lemma AcceptableIf(item: Item, j: Journal, c: Command)
    requires Stores(item, j, c)
    ensures Acceptable(item, c)
  {
  }
}
