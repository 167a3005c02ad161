/**
  The provider's side of the fresh-primary journal: four conditional writes of one item, each sent once and never
  retried. Requests of any run, this one's own earlier ones included, may land between any two steps.
 */
module FreshPrimaryTable {
  import opened Options
  import opened Results
  import opened FreshPrimaryJournal
  import opened FreshPrimaryProtocol
  import opened FreshPrimarySafety

  /** A chained journal of a valid command of this key. */
  ghost predicate Sound(j: Journal, key: Digest) {
    ValidCommand(j.command) && j.command.globalKeySha256 == key && Chained(j, FullRequest(j.command))
  }

  ghost predicate Stored(item: Item, key: Digest) {
    exists j :: Encode(j) == item && Sound(j, key)
  }

  lemma StoredDecodes(item: Item, key: Digest)
    requires Stored(item, key)
    ensures Encode(Decode(item)) == item && Sound(Decode(item), key)
  {
    var j :| Encode(j) == item && Sound(j, key);
    DecodeEncode(j);
  }

  // ----- Requests that fit, and requests that spoil ---------------------------------------------

  /** The receipt of a record of this command. */
  predicate OfCommand(d: Digest, c: Command) {
    && (d.preimage.Consumption? || d.preimage.Intent? || d.preimage.Transition? || d.preimage.Terminal?)
    && d.preimage.binding == BindingOf(c)
  }

  /**
    What the provider sends, whatever it is called with: the records it builds itself are bound to the command, a
    transition is anything that carries a number, and the receipt that stands before is anything.
   */
  predicate Requestable(w: Write, key: Digest) {
    && ValidCommand(w.command) && w.command.globalKeySha256 == key
    && if w.AppendTransition? then w.transition.Transition? && 0 <= w.transition.sequence else Formed(w)
  }

  /** What the controllers have it send: records bound to the command, after some receipt of the same command. */
  predicate Sendable(w: Write, key: Digest) {
    && Requestable(w, key) && Formed(w)
    && (!w.ConsumeOnce? ==> OfCommand(Previous(w), w.command))
  }

  /** The record a request adds is bound to this command, and is versioned by its place. */
  predicate Bound(w: Write, c: Command)
    requires !w.ConsumeOnce?
  {
    match w
    case AppendIntent(_, i) => i.Intent? && i.binding == BindingOf(c)
    case AppendTransition(_, t) => t.Transition? && BoundAt(t, c, t.sequence)
    case Finalize(_, cl) => cl.terminal.Terminal? && cl.terminal.binding == BindingOf(c)
  }

  predicate BoundAt(t: Record, c: Command, sequence: int) {
    t.Transition? && t.binding == BindingOf(c) && t.sequence == sequence && t.version == sequence + 3
  }

  /** The same request in the name of the command its record is bound to. */
  function InNameOf(w: Write, c: Command): Write
    requires !w.ConsumeOnce?
  {
    match w
    case AppendIntent(_, i) => AppendIntent(c, i)
    case AppendTransition(_, t) => AppendTransition(c, t)
    case Finalize(_, cl) => Finalize(c, cl)
  }

  /** An item that holds a record not bound to the command it names. */
  ghost predicate Spoiled(item: Item) {
    && item.command.Some? && item.command.value.B? && item.command.value.record.CommandRecord?
    && var c := item.command.value.record.command;
       || (item.intent.Some? && !(item.intent.value.B? && item.intent.value.record.Intent? &&
                                  item.intent.value.record.binding == BindingOf(c)))
       || (exists i :: i in item.slots && !SlotBound(item.slots[i], c, i))
       || (item.terminal.Some? && !(item.terminal.value.B? && item.terminal.value.record.Terminal? &&
                                    item.terminal.value.record.binding == BindingOf(c)))
  }

  predicate SlotBound(v: Value, c: Command, i: nat) {
    v.B? && BoundAt(v.record, c, i)
  }

  /** No read accepts a spoiled item, whatever it asks for. */
  lemma SpoiledIsUnreadable(item: Item, r: Request)
    requires Spoiled(item)
    ensures !Acceptable(item, r)
  {
    forall j ensures !Stores(item, j, r) {
      if Stores(item, j, r) {
        assert item.command == Some(B(CommandRecord(j.command)));
        forall i | i in item.slots ensures SlotBound(item.slots[i], j.command, i) {
          assert item.slots[i] == B(j.transitions[i]) && LinkAt(Root(j), j.command, j.transitions, i);
        }
        assert false;
      }
    }
  }

  /** And no request mends it. */
  lemma SpoiledForever(item: Item, w: Write)
    requires Spoiled(item) && Condition(w, Some(item))
    ensures Spoiled(Updated(w, Some(item)))
  {
    var after := Updated(w, Some(item));
    var c := item.command.value.record.command;
    if i :| i in item.slots && !SlotBound(item.slots[i], c, i) {
      assert i in after.slots && after.slots[i] == item.slots[i];
    }
  }

  lemma NotBoth(item: Item, key: Digest)
    requires Stored(item, key)
    ensures !Spoiled(item)
  {
    var j :| Encode(j) == item && Sound(j, key);
    forall i | i in item.slots ensures SlotBound(item.slots[i], j.command, i) {
      assert item.slots[i] == B(j.transitions[i]) && LinkAt(Root(j), j.command, j.transitions, i);
    }
  }

  /**
    The condition does not look at the record it adds. A request of any kind that passes on a sound journal extends it
    if its record is bound to the journal's own command, and spoils the item for ever if it is not.
   */
  lemma PassingExtendsOrSpoils(j: Journal, w: Write, key: Digest)
    requires Sound(j, key) && Requestable(w, key) && !w.ConsumeOnce? && Condition(w, Some(Encode(j)))
    ensures Bound(w, j.command) ==>
              && Sound(Extend(j, w), key) && Updated(w, Some(Encode(j))) == Encode(Extend(j, w))
              && Grows(j, Extend(j, w)) && Contains(Extend(j, w), w)
    ensures !Bound(w, j.command) ==> Spoiled(Updated(w, Some(Encode(j))))
  {
    if Bound(w, j.command) {
      BoundExtends(j, w, key);
    } else {
      var after := Updated(w, Some(Encode(j)));
      if w.AppendTransition? {
        assert w.transition.sequence in after.slots;
        assert !SlotBound(after.slots[w.transition.sequence], j.command, w.transition.sequence);
      }
    }
  }

  lemma BoundExtends(j: Journal, w: Write, key: Digest)
    requires Sound(j, key) && Requestable(w, key) && !w.ConsumeOnce? && Condition(w, Some(Encode(j)))
    requires Bound(w, j.command)
    ensures Sound(Extend(j, w), key) && Updated(w, Some(Encode(j))) == Encode(Extend(j, w))
    ensures Grows(j, Extend(j, w)) && Contains(Extend(j, w), w)
  {
    var v := InNameOf(w, j.command);
    var r := FullRequest(j.command);
    InNameIsFormed(w, j.command, key);
    ConditionRefusesMisplaced(j, r, v);
    ExtensionIsChained(j, r, v);
    UpdatedEncodesExtension(j, r, v);
    ExtensionShows(j, v);
  }

  lemma InNameIsFormed(w: Write, c: Command, key: Digest)
    requires Requestable(w, key) && !w.ConsumeOnce? && Bound(w, c)
    ensures Formed(InNameOf(w, c))
  {
  }

  lemma ExtensionShows(j: Journal, w: Write)
    requires Chained(j, FullRequest(j.command)) && WellFormed(w) && !w.ConsumeOnce? && Previous(w) == LastReceipt(j)
    requires Condition(w, Some(Encode(j)))
    ensures Grows(j, Extend(j, w)) && Contains(Extend(j, w), w)
  {
  }

  /** What a controller sends is bound to the journal it passes on. */
  lemma SendableIsBound(j: Journal, w: Write, key: Digest)
    requires Sound(j, key) && Sendable(w, key) && !w.ConsumeOnce? && Condition(w, Some(Encode(j)))
    ensures Bound(w, j.command) && w.command == j.command
  {
    ConditionRefusesMisplaced(j, FullRequest(j.command), w);
    SameCommand(j, w);
  }

  /**
    The writer numbers transitions up to 99, the reader counts up to 99: of all the items the writers can build, the
    reader accepts exactly those without a hundredth transition.
   */
  lemma ReadableIffBelowHundred(j: Journal, key: Digest)
    requires Sound(j, key)
    ensures Acceptable(Encode(j), FullRequest(j.command)) <==> |j.transitions| <= 99
  {
    if Acceptable(Encode(j), FullRequest(j.command)) {
      var k :| Stores(Encode(j), k, FullRequest(j.command));
      EncodeInjective(j, k);
    }
    if |j.transitions| <= 99 {
      AcceptableIf(Encode(j), j, FullRequest(j.command));
    }
  }

  lemma FirstIsSound(w: Write, key: Digest)
    requires Requestable(w, key) && w.ConsumeOnce?
    ensures Sound(Consumed(w.command, w.consumption), key)
  {
  }

  /** An item never goes away; a sound one came from a sound one that it only extends. */
  ghost predicate GrewTo(before: Option<Item>, after: Option<Item>, key: Digest) {
    before.Some? ==>
      && after.Some?
      && (Stored(after.value, key) ==> Stored(before.value, key) && Grows(Decode(before.value), Decode(after.value)))
  }

  lemma StoredEncodings(j: Journal, key: Digest)
    requires Sound(j, key)
    ensures Stored(Encode(j), key) && Decode(Encode(j)) == j
  {
    DecodeEncode(j);
  }

  class PrimaryTable {
    const key: Digest
    /** In a calm environment every call is answered and nothing lands late. */
    const calm: bool
    var item: Option<Item>
    /** Every request this side sent, in order. */
    var sent: seq<Write>

    ghost predicate Valid()
      reads this
    {
      && (item.Some? ==> Stored(item.value, key) || Spoiled(item.value))
      && (forall w :: w in sent ==> Requestable(w, key))
      && (Clean() && item.Some? ==> Stored(item.value, key))
    }

    /** This side was only asked for what the controllers ask for. */
    ghost predicate Clean()
      reads this
    {
      forall w :: w in sent ==> Sendable(w, key)
    }

    /** The item holds a sound journal. */
    ghost predicate Whole()
      reads this
    {
      item.Some? && Stored(item.value, key)
    }

    ghost function Log(): Journal
      reads this
      requires item.Some?
    {
      Decode(item.value)
    }

    constructor (k: Digest, quiet: bool)
      ensures Valid() && key == k && calm == quiet && item.None? && sent == []
    {
      key, calm, item, sent := k, quiet, None, [];
    }

    /** One delivery: the condition decides, atomically. */
    method Deliver(w: Write) returns (passed: bool)
      requires Valid() && (Sendable(w, key) || w in sent)
      modifies this`item
      ensures Valid() && GrewTo(old(item), item, key)
      ensures passed <==> Condition(w, old(item))
      ensures item == if passed then Some(Updated(w, old(item))) else old(item)
      ensures passed && Whole() ==> Contains(Log(), w)
    {
      hide Sound, Formed, WellFormed, Updated, Contains, Spoiled, Condition, Sendable, Requestable, Stored;
      passed := Condition(w, item);
      if passed {
        ghost var before := item;
        Passes(w);
        item := Some(Updated(w, item));
      } else {
        NothingGrew(item);
      }
    }

    /** What a passing request makes of the item. */
    lemma Passes(w: Write)
      requires Valid() && (Sendable(w, key) || w in sent) && Condition(w, item)
      ensures var after := Updated(w, item);
        && GrewTo(item, Some(after), key) && (Stored(after, key) || Spoiled(after))
        && (Stored(after, key) ==> Contains(Decode(after), w))
        && (Sendable(w, key) && (item.Some? ==> Stored(item.value, key)) ==> Stored(after, key))
        && (w.ConsumeOnce? ==> item.None?)
    {
      hide Updated, Spoiled, Contains, Grows, Condition, Requestable, Formed;
      RequestableIfSent(w);
      var after := Updated(w, item);
      if w.ConsumeOnce? {
        FirstIsSound(w, key);
        FirstDecodes(w);
        StoredEncodings(Consumed(w.command, w.consumption), key);
      } else {
        OnlyConsumeCreates(w);
        if Stored(item.value, key) {
          StoredDecodes(item.value, key);
          var j := Decode(item.value);
          PassingExtendsOrSpoils(j, w, key);
          if Bound(w, j.command) {
            StoredEncodings(Extend(j, w), key);
          } else {
            SpoiledIsNotStored(after);
          }
          if Sendable(w, key) {
            SendableIsBound(j, w, key);
          }
        } else {
          SpoiledForever(item.value, w);
          SpoiledIsNotStored(after);
        }
      }
    }

    lemma RequestableIfSent(w: Write)
      requires Valid() && (Sendable(w, key) || w in sent)
      ensures Requestable(w, key)
    {
    }

    lemma OnlyConsumeCreates(w: Write)
      requires Condition(w, item) && !w.ConsumeOnce?
      ensures item.Some?
    {
    }

    lemma SpoiledIsNotStored(after: Item)
      requires Spoiled(after)
      ensures !Stored(after, key)
    {
      if Stored(after, key) {
        NotBoth(after, key);
      }
    }

    lemma FirstDecodes(w: Write)
      requires w.ConsumeOnce? && Condition(w, item)
      ensures item.None? && Updated(w, item) == Encode(Consumed(w.command, w.consumption))
      ensures Contains(Consumed(w.command, w.consumption), w)
    {
    }

    lemma NothingGrew(o: Option<Item>)
      ensures GrewTo(o, o, key)
    {
    }

    lemma GrewTwice(a: Option<Item>, b: Option<Item>, c: Option<Item>)
      requires GrewTo(a, b, key) && GrewTo(b, c, key)
      ensures GrewTo(a, c, key)
    {
    }

    /** Time passes: requests of any run, and any this side ever sent, land in any order and any number of times. */
    method Settle()
      requires Valid()
      modifies this`item
      ensures Valid() && GrewTo(old(item), item, key)
      ensures calm ==> item == old(item)
    {
      hide Stored, Spoiled, Sendable, Requestable;
      NothingGrew(item);
      if calm {
        return;
      }
      var deliveries: nat := *;
      while deliveries > 0
        invariant Valid() && GrewTo(old(item), item, key)
      {
        var w: Write := *;
        if Sendable(w, key) || w in sent {
          ghost var before := item;
          var passed := Deliver(w);
          GrewTwice(old(item), before, item);
        }
        deliveries := deliveries - 1;
      }
    }

    /** `readStrong`: nothing, or a journal that parses; any other item throws. */
    method ReadStrong(command: Command) returns (o: Result<Option<Journal>>)
      requires Valid() && ValidCommand(command) && command.globalKeySha256 == key
      ensures o.Done? && o.value.None? ==> item.None?
      ensures o.Done? && o.value.Some? ==> Whole() && o.value.value == Log() && Log().command == command
      ensures calm ==> (o.Done? <==> item.None? || (Whole() && Log().command == command && |Log().transitions| <= 99))
    {
      var readable: bool := *;
      if !readable && !calm {
        return Threw;
      }
      if item.None? {
        return Done(None);
      }
      var j := ParseStoredItem(item.value, PartialRequest(command));
      ParsedIsLog(command, PartialRequest(command), j);
      return if j.Some? then Done(j) else Threw;
    }

    /** Parsing gives the journal of a sound item that is not full to who asks for its own command, and nothing else. */
    lemma ParsedIsLog(command: Command, r: Request, o: Option<Journal>)
      requires Valid() && item.Some? && ValidCommand(command)
      requires r == PartialRequest(command) || r == FullRequest(command)
      requires o.Some? <==> Acceptable(item.value, r)
      requires o.Some? ==> Stores(item.value, o.value, r)
      ensures o.Some? <==> Whole() && Log().command == command && |Log().transitions| <= 99
      ensures o.Some? ==> o.value == Log()
    {
      hide Spoiled;
      if Whole() {
        StoredDecodes(item.value, key);
        if o.Some? {
          DecodeEncode(o.value);
        }
        if Log().command == command && |Log().transitions| <= 99 {
          assert Chained(Log(), r);
          AcceptableIf(item.value, Log(), r);
        }
      } else {
        SpoiledIsUnreadable(item.value, r);
      }
    }

    /** `reconcileWrite`: after an error, one strongly consistent read decides whether the write is durable. */
    method ReconcileWrite(w: Write) returns (ok: bool)
      requires Valid() && Requestable(w, key)
      ensures ok ==> Whole() && Contains(Log(), w) && Log().command == w.command
    {
      var readable: bool := *;
      if (!readable && !calm) || item.None? {
        return false;
      }
      var j := ParseStoredItem(item.value, FullRequest(w.command));
      ParsedIsLog(w.command, FullRequest(w.command), j);
      ok := j.Some? && AcceptedBy(j.value, w);
    }

    /** `updateOnce`, and the put of `consumeOnce`: one request, never retried. */
    method WriteOnce(w: Write) returns (ok: bool)
      requires Valid() && Requestable(w, key)
      modifies this
      ensures Valid() && sent == old(sent) + [w] && GrewTo(old(item), item, key)
      ensures ok ==> item.Some? && (Whole() ==> Contains(Log(), w))
      ensures calm && Condition(w, old(item)) ==> ok && item == Some(Updated(w, old(item)))
    {
      hide Stored, Spoiled, Sendable, Requestable, Grows, Contains, Updated, Condition;
      sent := sent + [w];
      Settle();
      ghost var before := item;
      var processed, acknowledged: bool := *, *;
      if processed || calm {
        var passed := Deliver(w);
        GrewTwice(old(item), before, item);
        before := item;
        if passed && (acknowledged || calm) {
          return true;
        }
      }
      Settle();
      GrewTwice(old(item), before, item);
      ok := ReconcileWrite(w);
    }

    /** A record bound to two valid commands is bound to one. */
    lemma BindingNamesCommand(c: Command, d: Command)
      requires ValidCommand(c) && ValidCommand(d) && BindingOf(c) == BindingOf(d)
      ensures c == d
    {
    }

    /** `consumeOnce`: the record it returns is the journal's own consumption. */
    method ConsumeOnce(command: Command, consumedAt: int) returns (o: Result<Record>)
      requires Valid() && ValidCommand(command) && command.globalKeySha256 == key
      modifies this
      ensures Valid() && GrewTo(old(item), item, key) && (old(Clean()) ==> Clean())
      ensures o.Done? ==> item.Some? && (Whole() ==> Log().command == command && Log().consumption == o.value)
      ensures o.Done? ==> o.value == Consumption(BindingOf(command), command.coordinates.approvalId, consumedAt, 1)
      ensures calm && old(item).None? ==> o.Done? && Whole() && Log() == Consumed(command, o.value)
    {
      var consumption := Consumption(BindingOf(command), command.coordinates.approvalId, consumedAt, 1);
      var w := FreshPrimaryJournal.ConsumeOnce(command, consumption);
      FirstIsSound(w, key);
      StoredEncodings(Consumed(command, consumption), key);
      hide Stored, Spoiled;
      var ok := WriteOnce(w);
      return if ok then Done(consumption) else Threw;
    }

    /**
      `appendIntent`: durable behind exactly the given consumption. The consumption is not checked: given the stored
      one of another operation, the intent lands and spoils the item.
     */
    method AppendIntent(command: Command, consumption: Record, authentication: nat) returns (o: Result<Record>)
      requires Valid() && ValidCommand(command) && command.globalKeySha256 == key
      modifies this
      ensures Valid() && GrewTo(old(item), item, key)
      ensures old(Clean()) && OfCommand(Sha256(consumption), command) ==> Clean()
      ensures o.Done? ==> o.value == Intent(BindingOf(command), Sha256(consumption), authentication, 2)
      ensures o.Done? ==> item.Some?
      ensures o.Done? && Whole() ==>
                Log().command == command && Log().intent == Some(o.value) && Log().consumption == consumption
      ensures calm && old(Whole()) && old(Log()) == Consumed(old(Log()).command, consumption) ==>
                && o.Done? && (Whole() <==> old(Log()).command == command)
                && (Whole() ==> Log() == old(Log()).(intent := Some(o.value)))
    {
      hide Stored, Spoiled, Grows;
      var intent := Intent(BindingOf(command), Sha256(consumption), authentication, 2);
      var w := FreshPrimaryJournal.AppendIntent(command, intent);
      if Whole() && Log() == Consumed(Log().command, consumption) {
        StoredDecodes(item.value, key);
        assert Condition(w, item);
        PassedInCalm(w);
      }
      var ok := WriteOnce(w);
      if !ok {
        return Threw;
      }
      if Whole() {
        StoredDecodes(item.value, key);
        BindingNamesCommand(Log().command, command);
      }
      return Done(intent);
    }

    /** The item after a request that passes is sound exactly if the request is bound to the stored command. */
    lemma PassedInCalm(w: Write)
      requires Valid() && Whole() && Requestable(w, key) && !w.ConsumeOnce? && Condition(w, item)
      ensures Stored(Updated(w, item), key) <==> Bound(w, Log().command)
      ensures Bound(w, Log().command) ==> Decode(Updated(w, item)) == Extend(Log(), w)
      ensures w.AppendIntent? || w.Finalize? ==> (Bound(w, Log().command) <==> w.command == Log().command)
    {
      hide Spoiled, Grows, Contains, Updated, Condition;
      StoredDecodes(item.value, key);
      PassingExtendsOrSpoils(Log(), w, key);
      if Bound(w, Log().command) {
        StoredEncodings(Extend(Log(), w), key);
        if !w.AppendTransition? {
          BindingNamesCommand(Log().command, w.command);
        }
      } else {
        SpoiledIsNotStored(Updated(w, item));
      }
    }

    /**
      `appendTransition`: durable as the link of its own number, behind exactly the receipt it names. The record is not
      checked: one that is not bound to the stored command, or not versioned by its number, lands and spoils the item.
     */
    method AppendTransition(command: Command, transition: Record) returns (o: Result<Record>)
      requires Valid() && ValidCommand(command) && command.globalKeySha256 == key && transition.Transition?
      modifies this
      ensures Valid() && GrewTo(old(item), item, key)
      ensures old(Clean()) ==>
                BoundAt(transition, command, transition.sequence) && OfCommand(transition.previous, command) ==> Clean()
      ensures !(0 <= transition.sequence <= 99) ==> o.Threw? && sent == old(sent) && item == old(item)
      ensures o.Done? ==> o.value == transition && item.Some? && (Whole() ==> IsLink(transition))
      ensures calm && transition.sequence <= 99 && old(NextIs(transition.sequence, transition.previous)) ==>
                && o.Done? && (Whole() <==> BoundAt(transition, old(Log()).command, transition.sequence))
                && (Whole() ==> Log() == old(Log()).(transitions := old(Log()).transitions + [transition]))
    {
      hide Stored, Spoiled, Grows;
      if !(0 <= transition.sequence <= 99) {
        NothingGrew(item);
        return Threw;
      }
      var w := FreshPrimaryJournal.AppendTransition(command, transition);
      if NextIs(transition.sequence, transition.previous) {
        NextPasses(w, transition.sequence, transition.previous);
        PassedInCalm(w);
      }
      var ok := WriteOnce(w);
      if !ok {
        return Threw;
      }
      if Whole() {
        StoredDecodes(item.value, key);
        assert LinkAt(Root(Log()), Log().command, Log().transitions, transition.sequence);
      }
      return Done(transition);
    }

    /** The transition stands at its own number, bound to the stored command, behind the receipt it names. */
    ghost predicate IsLink(t: Record)
      requires item.Some? && t.Transition?
      reads this
    {
      && 0 <= t.sequence < |Log().transitions| && Log().transitions[t.sequence] == t
      && Tail(Log(), t.sequence) == t.previous && BoundAt(t, Log().command, t.sequence)
    }

    /**
      `finalize`: durable as the closing of a chain of exactly the given length and last receipt. The receipt is not
      checked: given the last receipt of another operation, the terminal lands and spoils the item.
     */
    method Finalize(command: Command, outcome: Record, previous: Digest, receipt: Record, transitionCount: int)
      returns (o: Result<Record>)
      requires Valid() && ValidCommand(command) && command.globalKeySha256 == key
      modifies this
      ensures Valid() && GrewTo(old(item), item, key)
      ensures old(Clean()) && OfCommand(previous, command) ==> Clean()
      ensures !(outcome.Outcome? && outcome.providerReceipt == Sha256(receipt)) ==>
                o.Threw? && sent == old(sent) && item == old(item)
      ensures o.Done? ==> item.Some?
      ensures o.Done? && Whole() ==>
                Log().command == command && Log().closing == Some(Closing(o.value, outcome, receipt))
      ensures o.Done? && Whole() ==> |Log().transitions| == transitionCount && Tail(Log(), transitionCount) == previous
      ensures outcome.Outcome? && outcome.providerReceipt == Sha256(receipt) ==>
                calm && old(NextIs(transitionCount, previous)) ==>
                  && o.Done? && (Whole() <==> old(Log()).command == command)
                  && (Whole() ==> Log() == old(Log()).(closing := Some(Closing(o.value, outcome, receipt))))
    {
      hide Stored, Spoiled, Grows;
      if !(outcome.Outcome? && outcome.providerReceipt == Sha256(receipt)) {
        NothingGrew(item);
        return Threw;
      }
      var terminal := Terminal(BindingOf(command), previous, Sha256(outcome), transitionCount, transitionCount + 3);
      var w := FreshPrimaryJournal.Finalize(command, Closing(terminal, outcome, receipt));
      if NextIs(transitionCount, previous) {
        NextPasses(w, transitionCount, previous);
        PassedInCalm(w);
      }
      var ok := WriteOnce(w);
      if !ok {
        return Threw;
      }
      if Whole() {
        StoredDecodes(item.value, key);
        BindingNamesCommand(Log().command, command);
      }
      return Done(terminal);
    }

    /** The journal is sound and open behind its intent, has `count` transitions, and this is its last receipt. */
    ghost predicate NextIs(count: int, previous: Digest)
      reads this
    {
      && Whole() && Log().closing.None? && Log().intent.Some?
      && |Log().transitions| == count && LastReceipt(Log()) == previous
    }

    /** A request for the next place passes, whatever record it carries. */
    lemma NextPasses(w: Write, count: int, previous: Digest)
      requires NextIs(count, previous)
      requires w.AppendTransition? ==>
                 w.transition.Transition? && w.transition.sequence == count && w.transition.previous == previous
      requires w.Finalize? ==>
                 && w.closing.terminal.Terminal? && w.closing.terminal.transitionCount == count
                 && w.closing.terminal.previous == previous
      requires w.AppendTransition? || w.Finalize?
      ensures Condition(w, item)
    {
      StoredDecodes(item.value, key);
    }
  }

  // ----- As many transitions as the writer takes, and one more than the reader does ----------------

  /** For every valid command there is a sound open journal of every length. */
  lemma {:induction false} SoundOfEveryLength(c: Command, n: nat) returns (j: Journal)
    requires ValidCommand(c)
    ensures Sound(j, c.globalKeySha256) && j.command == c && j.intent.Some? && j.closing.None? && |j.transitions| == n
  {
    if n == 0 {
      var consumption := Consumption(BindingOf(c), c.coordinates.approvalId, 0, 1);
      j := Consumed(c, consumption).(intent := Some(Intent(BindingOf(c), Sha256(consumption), 0, 2)));
    } else {
      j := SoundOfEveryLength(c, n - 1);
      var t := NextTransition(j, Accepted, true, 0);
      LinkedAppend(Root(j), c, j.transitions, t);
      j := j.(transitions := j.transitions + [t]);
    }
  }

  /** The record a controller would build for the next place. */
  function NextTransition(j: Journal, phase: Phase, mutation: bool, payload: nat): Record {
    var n := |j.transitions|;
    Transition(BindingOf(j.command), LastReceipt(j), n, n + 3, phase, mutation, payload)
  }

  /**
    On a calm table with a free key: a consumption, an intent and n transitions are written without an error for
    every n up to 100. The read that follows returns the journal exactly if n is at most 99, and otherwise throws.
   */
  method WriteAndRead(table: PrimaryTable, command: Command, phase: Phase, n: nat)
    returns (written: bool, read: Result<Option<Journal>>)
    requires table.Valid() && table.calm && table.item.None?
    requires ValidCommand(command) && command.globalKeySha256 == table.key && n <= 100
    modifies table
    ensures written && table.Whole() && |table.Log().transitions| == n && table.Log().command == command
    ensures if n <= 99 then read == Done(Some(table.Log())) else read.Threw?
  {
    hide Spoiled, Stored, GrewTo;
    written := true;
    var consumed := table.ConsumeOnce(command, 0);
    var intended := table.AppendIntent(command, consumed.value, 0);
    var previous := Sha256(intended.value);
    var sequence := 0;
    while sequence < n
      invariant 0 <= sequence <= n && table.Valid() && written
      invariant table.NextIs(sequence, previous) && table.Log().command == command
    {
      var transition := Transition(BindingOf(command), previous, sequence, sequence + 3, phase, true, 0);
      var appended := table.AppendTransition(command, transition);
      written := written && appended.Done?;
      previous := Sha256(transition);
      sequence := sequence + 1;
    }
    read := table.ReadStrong(command);
  }
}
