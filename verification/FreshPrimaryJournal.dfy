/**
  The one DynamoDB item that holds a fresh-primary journal: its attributes, the four conditional
  writes that build it, and the strict reader that re-checks everything the writers promise.

  SHA-256 over canonical bytes is idealised as a free constructor: equal digests mean equal records.
  Records carry the fields the readers look at; fields every writer sets to one literal
  (schema names, `status`, `durable`) are the datatype constructor itself.
 */
module FreshPrimaryJournal {
  import opened Options

  // ----- Records ------------------------------------------------------------------------------

  datatype Phase =
    | SignerSecretDispatching | SignerSecretSealed
    | PreflightStarted | PreflightAccepted
    | AdminCredentialDiscarding | AdminCredentialDiscarded
    | CreateDatabaseDispatching | DatabaseCreated
    | SecurityBootstrapDispatching | SecurityBootstrapped
    | PostflightStarted | Accepted
    | UnknownPhase(name: nat)

  datatype Status = Ambiguous | Confirmed | FailedTerminal | UnknownStatus(name: nat)

  datatype Digest = Sha256(preimage: Record)

  /** What a caller chooses. `bindings` stands for the remaining digests a command commits to. */
  datatype Coordinates = Coordinates(
    providerClusterId: nat, sqlClusterId: nat, operationId: nat, approvalId: nat,
    controllerTableArn: nat, bindings: nat)

  datatype Command = Command(coordinates: Coordinates, globalKeySha256: Digest, commandSha256: Digest)

  /** The four fields that tie every record to one command. */
  datatype Binding = Binding(commandSha256: Digest, globalKeySha256: Digest, operationId: nat, namespaceArn: nat)

  datatype Record =
    | EffectIdentity(providerClusterId: nat, sqlClusterId: nat)
    | UnsignedCommand(coordinates: Coordinates, globalKeySha256: Digest)
    | CommandRecord(command: Command)
    | Consumption(binding: Binding, approvalId: nat, consumedAt: int, version: int)
    | Intent(binding: Binding, previous: Digest, authentication: nat, version: int)
    | Transition(binding: Binding, previous: Digest, sequence: int, version: int,
                 phase: Phase, mutationDispatched: bool, payload: nat)
    | Outcome(commandSha256: Digest, globalKeySha256: Digest, operationId: nat,
              status: Status, observedAt: int, possibleMutation: bool, providerReceipt: Digest)
    | Terminal(binding: Binding, previous: Digest, outcome: Digest, transitionCount: int, version: int)
    | FailedReceipt(cause: nat, lastReceipt: Digest, transitionCount: int)
    | BootstrapReceipt(approvalId: nat, operationId: nat, sqlClusterId: nat, bindings: nat, evidence: nat)

  function GlobalKey(c: Coordinates): Digest {
    Sha256(EffectIdentity(c.providerClusterId, c.sqlClusterId))
  }

  function BuildCommand(c: Coordinates): Command {
    Command(c, GlobalKey(c), Sha256(UnsignedCommand(c, GlobalKey(c))))
  }

  /** `validateCommand`: the derived fields are the ones a rebuild gives. */
  predicate ValidCommand(c: Command) {
    c == BuildCommand(c.coordinates)
  }

  function BindingOf(c: Command): Binding {
    Binding(c.commandSha256, c.globalKeySha256, c.coordinates.operationId, c.coordinates.controllerTableArn)
  }

  // ----- Items --------------------------------------------------------------------------------

  datatype StateName = CONSUMED | INTENT | TRANSITION | TERMINAL

  datatype Value =
    | S(digest: Digest) | Id(id: nat) | St(state: StateName) | FreshPrimaryV1 | N(number: int) | B(record: Record)

  type Attribute = Option<Value>

  /** A stored item: each named attribute or its absence, the numbered transition slots, and anything else. */
  datatype Item = Item(
    pk: Attribute, entity: Attribute, namespaceArn: Attribute, commandSha256: Attribute, globalKeySha256: Attribute,
    operationId: Attribute, command: Attribute, consumption: Attribute, consumptionSha256: Attribute,
    lastReceiptSha256: Attribute, state: Attribute, transitionCount: Attribute, version: Attribute,
    intent: Attribute, intentSha256: Attribute, slots: map<nat, Value>,
    outcome: Attribute, outcomeSha256: Attribute, providerReceipt: Attribute,
    terminal: Attribute, terminalSha256: Attribute, foreign: map<nat, Value>)

  /** What a reader extracts from an item. */
  datatype Journal = Journal(
    namespaceArn: nat, command: Command, consumption: Record, intent: Option<Record>,
    transitions: seq<Record>, closing: Option<Closing>)

  datatype Closing = Closing(terminal: Record, outcome: Record, providerReceipt: Record)

  /** The receipt the first transition follows: the intent, or the consumption while there is none. */
  function Root(j: Journal): Digest {
    if j.intent.Some? then Sha256(j.intent.value) else Sha256(j.consumption)
  }

  /** The receipt that stands before link n of a chain of transitions. */
  function TailOf(root: Digest, transitions: seq<Record>, n: nat): Digest
    requires n <= |transitions|
  {
    if n > 0 then Sha256(transitions[n - 1]) else root
  }

  function Tail(j: Journal, n: nat): Digest
    requires n <= |j.transitions|
  {
    TailOf(Root(j), j.transitions, n)
  }

  function LastReceipt(j: Journal): Digest {
    if j.closing.Some? then Sha256(j.closing.value.terminal) else Tail(j, |j.transitions|)
  }

  function StateOf(j: Journal): StateName {
    if j.closing.Some? then TERMINAL
    else if j.intent.None? then CONSUMED
    else if |j.transitions| == 0 then INTENT
    else TRANSITION
  }

  function VersionOf(j: Journal): int {
    if j.closing.Some? then |j.transitions| + 3
    else if j.intent.None? then 1
    else |j.transitions| + 2
  }

  function Slots(transitions: seq<Record>): map<nat, Value> {
    map i: nat | i < |transitions| :: B(transitions[i])
  }

  /** The exact item that stores a journal: no attribute more, none less. */
  function Encode(j: Journal): Item {
    Item(Some(S(j.command.globalKeySha256)), Some(FreshPrimaryV1), Some(Id(j.namespaceArn)),
         Some(S(j.command.commandSha256)), Some(S(j.command.globalKeySha256)),
         Some(Id(j.command.coordinates.operationId)), Some(B(CommandRecord(j.command))),
         Some(B(j.consumption)), Some(S(Sha256(j.consumption))),
         Some(S(LastReceipt(j))), Some(St(StateOf(j))), Some(N(|j.transitions|)), Some(N(VersionOf(j))),
         if j.intent.None? then None else Some(B(j.intent.value)),
         if j.intent.None? then None else Some(S(Sha256(j.intent.value))),
         Slots(j.transitions),
         if j.closing.None? then None else Some(B(j.closing.value.outcome)),
         if j.closing.None? then None else Some(S(Sha256(j.closing.value.outcome))),
         if j.closing.None? then None else Some(B(j.closing.value.providerReceipt)),
         if j.closing.None? then None else Some(B(j.closing.value.terminal)),
         if j.closing.None? then None else Some(S(Sha256(j.closing.value.terminal))),
         map[])
  }

  /** The encoding loses nothing. */
  lemma EncodeInjective(j: Journal, k: Journal)
    requires Encode(j) == Encode(k)
    ensures j == k
  {
    var slots := Slots(j.transitions);
    assert slots == Slots(k.transitions);
    assert |j.transitions| == |k.transitions|;
    forall i: nat | i < |j.transitions| ensures j.transitions[i] == k.transitions[i] {
      assert slots[i] == B(j.transitions[i]) == B(k.transitions[i]);
    }
  }

  // ----- The strict reader --------------------------------------------------------------------

  /** The coordinates a read is made with; `full` is the whole command when the caller holds it. */
  datatype Request = Request(commandSha256: Digest, globalKeySha256: Digest, operationId: nat, namespaceArn: nat,
                             full: Option<Command>)

  function PartialRequest(c: Command): Request {
    Request(c.commandSha256, c.globalKeySha256, c.coordinates.operationId, c.coordinates.controllerTableArn, None)
  }

  function FullRequest(c: Command): Request {
    PartialRequest(c).(full := Some(c))
  }

  predicate CommandMatches(c: Command, r: Request) {
    && c.commandSha256 == r.commandSha256 && c.globalKeySha256 == r.globalKeySha256
    && c.coordinates.operationId == r.operationId
    && (r.full.Some? ==> c == r.full.value)
  }

  predicate ConsumptionFits(r: Record, c: Command) {
    r.Consumption? && r.version == 1 && r.binding == BindingOf(c)
  }

  predicate IntentFits(r: Record, c: Command, previous: Digest) {
    r.Intent? && r.version == 2 && r.binding == BindingOf(c) && r.previous == previous
  }

  predicate TransitionFits(r: Record, c: Command, sequence: int, previous: Digest) {
    && r.Transition? && r.binding == BindingOf(c) && r.previous == previous
    && r.sequence == sequence && r.version == sequence + 3
  }

  /** The reader binds the terminal to the command and chain, the outcome only to the terminal. */
  predicate ClosingFits(cl: Closing, c: Command, count: int, previous: Digest) {
    && cl.terminal.Terminal? && cl.terminal.binding == BindingOf(c) && cl.terminal.previous == previous
    && cl.terminal.transitionCount == count && cl.terminal.version == count + 3
    && cl.terminal.outcome == Sha256(cl.outcome)
    && cl.outcome.Outcome? && cl.outcome.providerReceipt == Sha256(cl.providerReceipt)
  }

  /** Each transition carries its position and names the receipt just before it. */
  ghost predicate Linked(root: Digest, c: Command, transitions: seq<Record>) {
    forall i: nat :: i < |transitions| ==> LinkAt(root, c, transitions, i)
  }

  ghost predicate LinkAt(root: Digest, c: Command, transitions: seq<Record>, i: nat)
    requires i < |transitions|
  {
    TransitionFits(transitions[i], c, i, TailOf(root, transitions, i))
  }

  /** One unbroken chain of receipts, bound to the requested command. */
  ghost predicate Chained(j: Journal, r: Request) {
    && CommandMatches(j.command, r) && j.namespaceArn == r.namespaceArn
    && ConsumptionFits(j.consumption, j.command)
    && (j.intent.Some? ==> IntentFits(j.intent.value, j.command, Sha256(j.consumption)))
    && (j.intent.None? ==> |j.transitions| == 0)
    && Linked(Root(j), j.command, j.transitions)
    && (j.closing.Some? ==> ClosingFits(j.closing.value, j.command, |j.transitions|, Tail(j, |j.transitions|)))
  }

  /** The reader knows a hundred slots, and refuses a journal that fills them all. */
  ghost predicate Stores(item: Item, j: Journal, r: Request) {
    Chained(j, r) && |j.transitions| <= 99 && item == Encode(j)
  }

  /** Exactly the items that encode a well-chained journal of the requested command. */
  ghost predicate Acceptable(item: Item, r: Request) {
    exists j :: Stores(item, j, r)
  }

  function Bytes(a: Attribute): Option<Record> {
    if a.Some? && a.value.B? then Some(a.value.record) else None
  }

  /** No attribute beyond the ones this journal has. */
  predicate ExactKeys(item: Item, j: Journal) {
    && item.intent.Some? == item.intentSha256.Some? == j.intent.Some?
    && item.slots.Keys == Slots(j.transitions).Keys
    && item.outcome.Some? == item.outcomeSha256.Some? == item.providerReceipt.Some? == j.closing.Some?
    && item.terminal.Some? == item.terminalSha256.Some? == j.closing.Some?
    && item.foreign == map[]
  }

  /** The part of a journal that does not depend on the slots. */
  datatype Header = Header(command: Command, consumption: Record, intent: Option<Record>, count: nat)

  predicate HeaderFits(item: Item, r: Request, h: Header) {
    && item.pk == Some(S(r.globalKeySha256)) && item.entity == Some(FreshPrimaryV1)
    && item.namespaceArn == Some(Id(r.namespaceArn)) && item.commandSha256 == Some(S(r.commandSha256))
    && item.globalKeySha256 == Some(S(r.globalKeySha256)) && item.operationId == Some(Id(r.operationId))
    && item.command == Some(B(CommandRecord(h.command))) && CommandMatches(h.command, r)
    && item.consumption == Some(B(h.consumption)) && ConsumptionFits(h.consumption, h.command)
    && item.consumptionSha256 == Some(S(Sha256(h.consumption)))
    && item.transitionCount == Some(N(h.count)) && h.count <= 99
    && (h.intent.None? ==> item.intent.None? && h.count == 0)
    && (h.intent.Some? ==>
          && item.intent == Some(B(h.intent.value)) && item.intentSha256 == Some(S(Sha256(h.intent.value)))
          && IntentFits(h.intent.value, h.command, Sha256(h.consumption)))
  }

  method ParseHeader(item: Item, r: Request) returns (o: Option<Header>)
    ensures o.Some? ==> HeaderFits(item, r, o.value)
    ensures forall h :: HeaderFits(item, r, h) ==> o == Some(h)
  {
    var command, consumption, intent := Bytes(item.command), Bytes(item.consumption), Bytes(item.intent);
    if !(command.Some? && command.value.CommandRecord? && consumption.Some? && (item.intent.Some? ==> intent.Some?)) {
      return None;
    }
    if !(item.transitionCount.Some? && item.transitionCount.value.N? && 0 <= item.transitionCount.value.number) {
      return None;
    }
    var h := Header(command.value.command, consumption.value, intent, item.transitionCount.value.number);
    if !HeaderFits(item, r, h) {
      return None;
    }
    o := Some(h);
  }

  predicate ClosingHolds(item: Item, cl: Option<Closing>, c: Command, count: int, previous: Digest) {
    if cl.None? then item.terminal.None? && item.outcome.None? && item.providerReceipt.None?
    else
      && item.terminal == Some(B(cl.value.terminal)) && item.outcome == Some(B(cl.value.outcome))
      && item.providerReceipt == Some(B(cl.value.providerReceipt))
      && item.terminalSha256 == Some(S(Sha256(cl.value.terminal)))
      && item.outcomeSha256 == Some(S(Sha256(cl.value.outcome)))
      && ClosingFits(cl.value, c, count, previous)
  }

  method ParseClosing(item: Item, c: Command, count: int, previous: Digest) returns (o: Option<Option<Closing>>)
    ensures o.Some? ==> ClosingHolds(item, o.value, c, count, previous)
    ensures forall cl :: ClosingHolds(item, cl, c, count, previous) ==> o == Some(cl)
  {
    if item.terminal.None? && item.outcome.None? && item.providerReceipt.None? {
      return Some(None);
    }
    var terminal, outcome, receipt := Bytes(item.terminal), Bytes(item.outcome), Bytes(item.providerReceipt);
    if !(terminal.Some? && outcome.Some? && receipt.Some?) {
      return None;
    }
    var cl := Closing(terminal.value, outcome.value, receipt.value);
    if !ClosingHolds(item, Some(cl), c, count, previous) {
      return None;
    }
    o := Some(Some(cl));
  }

  /** The summary attributes a journal determines. */
  predicate SummaryFits(item: Item, j: Journal) {
    && item.state == Some(St(StateOf(j))) && item.version == Some(N(VersionOf(j)))
    && item.lastReceiptSha256 == Some(S(LastReceipt(j))) && ExactKeys(item, j)
  }

  lemma StoredParts(item: Item, j: Journal, r: Request)
    requires Stores(item, j, r)
    ensures HeaderFits(item, r, Header(j.command, j.consumption, j.intent, |j.transitions|))
    ensures SlotChain(item.slots, j.command, Root(j), j.transitions)
    ensures ClosingHolds(item, j.closing, j.command, |j.transitions|, Tail(j, |j.transitions|))
    ensures SummaryFits(item, j)
  {
  }

  lemma PartsAreStored(item: Item, j: Journal, r: Request)
    requires HeaderFits(item, r, Header(j.command, j.consumption, j.intent, |j.transitions|))
    requires SlotChain(item.slots, j.command, Root(j), j.transitions)
    requires ClosingHolds(item, j.closing, j.command, |j.transitions|, Tail(j, |j.transitions|))
    requires j.namespaceArn == r.namespaceArn
    requires SummaryFits(item, j)
    ensures Stores(item, j, r)
  {
    assert item.slots == Slots(j.transitions);
  }

  /** `parseStoredItem`: accepts an item iff it is the encoding of a chained journal, and returns that journal. */
  method ParseStoredItem(item: Item, r: Request) returns (o: Option<Journal>)
    ensures o.Some? <==> Acceptable(item, r)
    ensures o.Some? ==> Stores(item, o.value, r)
  {
    ghost var legit := Acceptable(item, r);
    ghost var j0: Journal :| legit ==> Stores(item, j0, r);
    if legit {
      StoredParts(item, j0, r);
    }
    hide Stores, Acceptable, SummaryFits, SlotChain;
    var header := ParseHeader(item, r);
    if header.None? {
      return None;
    }
    var h := header.value;
    var root := if h.intent.None? then Sha256(h.consumption) else Sha256(h.intent.value);
    var transitions := ParseTransitions(item.slots, h.command, root, h.count);
    if transitions.None? {
      return None;
    }
    var closing := ParseClosing(item, h.command, h.count, TailOf(root, transitions.value, h.count));
    if closing.None? {
      return None;
    }
    var j := Journal(r.namespaceArn, h.command, h.consumption, h.intent, transitions.value, closing.value);
    assert legit ==> j == j0;
    if !SummaryFits(item, j) {
      return None;
    }
    PartsAreStored(item, j, r);
    AcceptableIf(item, j, r);
    o := Some(j);
  }

  lemma AcceptableIf(item: Item, j: Journal, r: Request)
    requires Stores(item, j, r)
    ensures Acceptable(item, r)
  {
  }

  /** The first `count` slots hold these transitions, linked from the root. */
  ghost predicate SlotChain(slots: map<nat, Value>, c: Command, root: Digest, transitions: seq<Record>) {
    && Linked(root, c, transitions)
    && forall i: nat :: i < |transitions| ==> i in slots && slots[i] == B(transitions[i])
  }

  /** Two chains read from the same slots agree link by link. */
  lemma SlotChainsAgree(slots: map<nat, Value>, c: Command, root: Digest, ts: seq<Record>, us: seq<Record>)
    requires SlotChain(slots, c, root, ts) && SlotChain(slots, c, root, us)
    requires |ts| <= |us|
    ensures ts == us[..|ts|]
  {
    forall i: nat | i < |ts| ensures ts[i] == us[i] {
      assert slots[i] == B(ts[i]) == B(us[i]);
    }
  }

  /** If a longer chain is there to be read, the next slot passes the reader's test. */
  lemma NextSlotFits(slots: map<nat, Value>, c: Command, root: Digest, ts: seq<Record>, us: seq<Record>)
    requires SlotChain(slots, c, root, ts) && SlotChain(slots, c, root, us)
    requires |ts| < |us|
    ensures |ts| in slots && slots[|ts|] == B(us[|ts|])
    ensures TransitionFits(us[|ts|], c, |ts|, TailOf(root, ts, |ts|))
  {
    SlotChainsAgree(slots, c, root, ts, us);
    assert LinkAt(root, c, us, |ts|);
  }

  lemma SlotChainAppend(slots: map<nat, Value>, c: Command, root: Digest, ts: seq<Record>, t: Record)
    requires SlotChain(slots, c, root, ts)
    requires |ts| in slots && slots[|ts|] == B(t) && TransitionFits(t, c, |ts|, TailOf(root, ts, |ts|))
    ensures SlotChain(slots, c, root, ts + [t])
  {
    LinkedAppend(root, c, ts, t);
    var us := ts + [t];
    forall i: nat | i < |us| ensures i in slots && slots[i] == B(us[i]) {
      if i < |ts| {
        assert us[i] == ts[i];
      }
    }
  }

  /** The reader's loop: walks the slots in order, carrying the digest the next record must name. */
  method ParseTransitions(slots: map<nat, Value>, command: Command, root: Digest, count: nat)
    returns (o: Option<seq<Record>>)
    ensures o.Some? ==> |o.value| == count && SlotChain(slots, command, root, o.value)
    ensures forall ts :: |ts| == count && SlotChain(slots, command, root, ts) ==> o == Some(ts)
  {
    var transitions: seq<Record> := [];
    var previous := root;
    var sequence := 0;
    while sequence < count
      invariant 0 <= sequence == |transitions| <= count
      invariant previous == TailOf(root, transitions, sequence)
      invariant SlotChain(slots, command, root, transitions)
    {
      forall ts | |ts| == count && SlotChain(slots, command, root, ts)
        ensures sequence in slots && slots[sequence] == B(ts[sequence])
        ensures TransitionFits(ts[sequence], command, sequence, previous)
      {
        NextSlotFits(slots, command, root, transitions, ts);
      }
      if !(sequence in slots && slots[sequence].B? &&
           TransitionFits(slots[sequence].record, command, sequence, previous)) {
        return None;
      }
      var transition := slots[sequence].record;
      SlotChainAppend(slots, command, root, transitions, transition);
      transitions := transitions + [transition];
      previous := Sha256(transition);
      sequence := sequence + 1;
    }
    forall ts | |ts| == count && SlotChain(slots, command, root, ts) ensures ts == transitions {
      SlotChainsAgree(slots, command, root, ts, transitions);
    }
    o := Some(transitions);
  }

  // ----- The conditional writes ---------------------------------------------------------------

  datatype Write =
    | ConsumeOnce(command: Command, consumption: Record)
    | AppendIntent(command: Command, intent: Record)
    | AppendTransition(command: Command, transition: Record)
    | Finalize(command: Command, closing: Closing)

  function Consumed(c: Command, consumption: Record): Journal {
    Journal(c.coordinates.controllerTableArn, c, consumption, None, [], None)
  }

  /** The shape the provider gives its requests. */
  predicate Formed(w: Write) {
    match w
    case ConsumeOnce(c, consumption) => ConsumptionFits(consumption, c)
    case AppendIntent(c, i) => i.Intent? && IntentFits(i, c, i.previous)
    case AppendTransition(c, t) => t.Transition? && 0 <= t.sequence && TransitionFits(t, c, t.sequence, t.previous)
    case Finalize(c, cl) =>
      && cl.terminal.Terminal?
      && ClosingFits(cl, c, cl.terminal.transitionCount, cl.terminal.previous)
  }

  /** A request that follows a receipt of the kind that can stand at its place. */
  predicate WellFormed(w: Write) {
    Formed(w) &&
    match w
    case ConsumeOnce(_, _) => true
    case AppendIntent(_, i) => i.previous.preimage.Consumption?
    case AppendTransition(_, t) => LinkedAfter(t.previous, t.sequence)
    case Finalize(_, cl) =>
      && 0 <= cl.terminal.transitionCount
      && LinkedAfter(cl.terminal.previous, cl.terminal.transitionCount)
  }

  /** A receipt that can stand before link n: the intent before link 0, transition n - 1 before link n. */
  predicate LinkedAfter(d: Digest, n: int) {
    if n == 0 then d.preimage.Intent? else d.preimage.Transition? && d.preimage.sequence == n - 1
  }

  /** The receipt a write names as its predecessor. */
  function Previous(w: Write): Digest
    requires !w.ConsumeOnce? && Formed(w)
  {
    match w
    case AppendIntent(_, intent) => intent.previous
    case AppendTransition(_, t) => t.previous
    case Finalize(_, cl) => cl.terminal.previous
  }

  /** The ConditionExpression of each request, test by test. */
  predicate Condition(w: Write, item: Option<Item>) {
    match w
    case ConsumeOnce(_, _) => item.None?
    case AppendIntent(_, i) =>
      && item.Some? && item.value.state == Some(St(CONSUMED)) && item.value.version == Some(N(1))
      && i.Intent? && item.value.lastReceiptSha256 == Some(S(i.previous)) && item.value.intent.None?
    case AppendTransition(_, t) =>
      && item.Some? && t.Transition? && 0 <= t.sequence
      && item.value.state == Some(St(if t.sequence == 0 then INTENT else TRANSITION))
      && item.value.version == Some(N(t.sequence + 2)) && item.value.lastReceiptSha256 == Some(S(t.previous))
      && item.value.transitionCount == Some(N(t.sequence)) && t.sequence !in item.value.slots
    case Finalize(_, cl) =>
      && item.Some? && cl.terminal.Terminal?
      && item.value.state == Some(St(if cl.terminal.transitionCount == 0 then INTENT else TRANSITION))
      && item.value.version == Some(N(cl.terminal.transitionCount + 2))
      && item.value.lastReceiptSha256 == Some(S(cl.terminal.previous))
      && item.value.transitionCount == Some(N(cl.terminal.transitionCount)) && item.value.terminal.None?
  }

  /** The item after the write: the put item, or the SET assignments of the update. */
  function Updated(w: Write, item: Option<Item>): Item
    requires Condition(w, item)
  {
    match w
    case ConsumeOnce(c, consumption) => Encode(Consumed(c, consumption))
    case AppendIntent(_, i) =>
      item.value.(intent := Some(B(i)), intentSha256 := Some(S(Sha256(i))), lastReceiptSha256 := Some(S(Sha256(i))),
                  state := Some(St(INTENT)), version := Some(N(2)))
    case AppendTransition(_, t) =>
      item.value.(slots := item.value.slots[t.sequence := B(t)], lastReceiptSha256 := Some(S(Sha256(t))),
                  transitionCount := Some(N(t.sequence + 1)), state := Some(St(TRANSITION)),
                  version := Some(N(t.version)))
    case Finalize(_, cl) =>
      item.value.(outcome := Some(B(cl.outcome)), outcomeSha256 := Some(S(Sha256(cl.outcome))),
                  providerReceipt := Some(B(cl.providerReceipt)),
                  terminal := Some(B(cl.terminal)), terminalSha256 := Some(S(Sha256(cl.terminal))),
                  lastReceiptSha256 := Some(S(Sha256(cl.terminal))), state := Some(St(TERMINAL)),
                  version := Some(N(cl.terminal.transitionCount + 3)))
  }

  /** The journal with one more link. */
  function Extend(j: Journal, w: Write): Journal
    requires !w.ConsumeOnce?
  {
    match w
    case AppendIntent(_, i) => j.(intent := Some(i))
    case AppendTransition(_, t) => j.(transitions := j.transitions + [t])
    case Finalize(_, cl) => j.(closing := Some(cl))
  }

  /**
    The provider's state, version, count and slot tests are all implied by one comparison: against a chained
    item, a well-formed request passes its condition exactly when it names the item's last receipt.
   */
  lemma ConditionIsCompareLastReceipt(j: Journal, r: Request, w: Write)
    requires Chained(j, r) && WellFormed(w) && !w.ConsumeOnce?
    ensures Condition(w, Some(Encode(j))) <==> Previous(w) == LastReceipt(j)
  {
    var n := |j.transitions|;
    assert forall i: nat :: i in Slots(j.transitions) <==> i < n;
    if n > 0 {
      assert LinkAt(Root(j), j.command, j.transitions, n - 1);
    }
  }

  /** A request that names a receipt of the wrong place is refused by the condition of any chained item. */
  lemma ConditionRefusesMisplaced(j: Journal, r: Request, w: Write)
    requires Chained(j, r) && Formed(w) && !w.ConsumeOnce?
    requires Condition(w, Some(Encode(j)))
    ensures WellFormed(w) && Previous(w) == LastReceipt(j)
  {
    var n := |j.transitions|;
    if n > 0 {
      assert LinkAt(Root(j), j.command, j.transitions, n - 1);
    }
  }

  /** A write that passes its condition turns the encoding of a journal into the encoding of its extension. */
  lemma UpdatedEncodesExtension(j: Journal, r: Request, w: Write)
    requires Chained(j, r) && WellFormed(w) && !w.ConsumeOnce?
    requires Condition(w, Some(Encode(j)))
    ensures Updated(w, Some(Encode(j))) == Encode(Extend(j, w))
  {
    ConditionIsCompareLastReceipt(j, r, w);
    match w {
      case AppendIntent(_, i) =>
        assert LastReceipt(Extend(j, w)) == Sha256(i);
      case AppendTransition(_, t) =>
        SlotsAppend(j.transitions, t);
      case Finalize(_, cl) =>
    }
  }

  lemma SlotsAppend(transitions: seq<Record>, t: Record)
    ensures Slots(transitions + [t]) == Slots(transitions)[|transitions| := B(t)]
  {
  }

  /** The extension is again one unbroken chain of the same command. */
  lemma ExtensionIsChained(j: Journal, r: Request, w: Write)
    requires Chained(j, r) && WellFormed(w) && !w.ConsumeOnce?
    requires BindingOf(w.command) == BindingOf(j.command)
    requires Previous(w) == LastReceipt(j)
    ensures Chained(Extend(j, w), r)
  {
    ConditionIsCompareLastReceipt(j, r, w);
    if w.AppendTransition? {
      LinkedAppend(Root(j), j.command, j.transitions, w.transition);
    }
  }

  lemma LinkedAppend(root: Digest, c: Command, transitions: seq<Record>, t: Record)
    requires Linked(root, c, transitions)
    requires TransitionFits(t, c, |transitions|, TailOf(root, transitions, |transitions|))
    ensures Linked(root, c, transitions + [t])
  {
    forall i: nat | i <= |transitions|
      ensures LinkAt(root, c, transitions + [t], i)
    {
      assert TailOf(root, transitions + [t], i) == TailOf(root, transitions, i);
      assert i < |transitions| ==> LinkAt(root, c, transitions, i);
    }
  }
}
