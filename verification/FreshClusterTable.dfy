/**
  The table that holds one cluster journal, and the recorder through which a controller writes it. Any write that
  was ever sent may land at any later moment, even after its sender saw an error.
 */
module FreshClusterTable {
  import opened Options
  import opened FreshClusterJournal
  import opened FreshClusterWrites

  /** The journal an item stores, when it stores one. */
  ghost function Decode(item: Item): Journal {
    var j :| (exists k :: Encode(k) == item) ==> Encode(j) == item; j
  }

  lemma DecodeEncode(j: Journal)
    ensures Decode(Encode(j)) == j
  {
    EncodeInjective(Decode(Encode(j)), j);
  }

  ghost predicate ItemOk(item: Item, c: Command) {
    exists j :: Encode(j) == item && JournalOk(j, c)
  }

  lemma DecodeOk(item: Item, c: Command)
    requires ItemOk(item, c)
    ensures Encode(Decode(item)) == item && JournalOk(Decode(item), c)
  {
    var j :| Encode(j) == item && JournalOk(j, c);
    DecodeEncode(j);
  }

  /** `j` is an earlier state of `k`. */
  ghost predicate Grows(j: Journal, k: Journal) {
    && j.command == k.command && j.reservation == k.reservation && j.transitions <= k.transitions
    && (!IsOpen(j) ==> j == k)
  }

  ghost predicate Contains(j: Journal, w: Write) {
    match w
    case Append(_, t) => t.Transition? && 0 <= t.sequence < |j.transitions| && j.transitions[t.sequence] == t
    case Finish(_, r) => j.finalReceipt == Some(r)
    case Terminalize(_, r) => j.terminalReceipt == Some(r)
  }

  /** One delivery extends the journal by exactly its write, or changes nothing. */
  lemma LandKeepsItem(item: Item, w: Write, c: Command)
    requires ItemOk(item, c) && WellFormed(w) && w.command == c
    ensures ItemOk(Land(item, w), c) && Grows(Decode(item), Decode(Land(item, w)))
    ensures Condition(w, item) ==>
              Decode(Land(item, w)) == Extend(Decode(item), w) && Contains(Decode(Land(item, w)), w)
    ensures Condition(w, item) ==> IsOpen(Decode(item))
  {
    DecodeOk(item, c);
    var j := Decode(item);
    if Condition(w, item) {
      ConditionIsCompareLastReceipt(j, w);
      UpdatedEncodesExtension(j, w);
      ExtensionIsOk(j, w);
      DecodeEncode(Extend(j, w));
    }
  }

  /** A sequence of deliveries: any writers, any order, any repetition. */
  function LandAll(item: Item, ws: seq<Write>): Item
    decreases |ws|
  {
    if ws == [] then item else LandAll(Land(item, ws[0]), ws[1..])
  }

  /**
    Whatever is delivered, the stored item stays one the strict reader accepts: phases pairwise distinct, at most
    51 of the 80 it allows, never both receipts. Once it holds a receipt it never changes again.
   */
  lemma {:induction false} DeliveriesKeepJournal(item: Item, ws: seq<Write>, c: Command)
    requires ItemOk(item, c) && forall w :: w in ws ==> WellFormed(w) && w.command == c
    ensures ItemOk(LandAll(item, ws), c) && Acceptable(LandAll(item, ws), c)
    ensures Grows(Decode(item), Decode(LandAll(item, ws)))
    ensures var k := Decode(LandAll(item, ws));
      && DistinctPhases(k.transitions) && |k.transitions| <= 51 && (k.finalReceipt.None? || k.terminalReceipt.None?)
    ensures !IsOpen(Decode(item)) ==> LandAll(item, ws) == item
    decreases |ws|
  {
    hide WellFormed, JournalOk, Condition, Updated, Chained;
    if ws == [] {
      DecodeOk(item, c);
      OkIsAcceptable(item, c);
    } else {
      LandKeepsItem(item, ws[0], c);
      DeliveriesKeepJournal(Land(item, ws[0]), ws[1..], c);
    }
  }

  lemma OkIsAcceptable(item: Item, c: Command)
    requires ItemOk(item, c)
    ensures Acceptable(item, c)
    ensures var k := Decode(item);
      && DistinctPhases(k.transitions) && |k.transitions| <= 51 && (k.finalReceipt.None? || k.terminalReceipt.None?)
  {
    DecodeOk(item, c);
    var k := Decode(item);
    assert Stores(item, k, c);
    KnownPhasesBound(k.transitions);
  }

  // ----- The table ----------------------------------------------------------------------------

  class ControllerTable {
    const command: Command
    /** In a calm environment every call is answered and nothing lands late. */
    const calm: bool
    var item: Option<Item>
    /** The puts of `reserve` and the updates ever sent, in order: each may land at any later moment. */
    var puts: seq<Record>
    var sent: seq<Write>

    ghost predicate Valid()
      reads this
    {
      && (item.Some? ==> ItemOk(item.value, command))
      && (item.None? ==> sent == [])
      && (forall r :: r in puts ==> ReservationFits(r, command))
      && (forall w :: w in sent ==> WellFormed(w) && w.command == command)
      && (item.Some? ==> Decode(item.value).reservation in puts && AllWereSent(Decode(item.value), sent))
    }

    /** Nothing stands in the journal that was not sent. */
    ghost predicate AllWereSent(j: Journal, writes: seq<Write>) {
      && (forall t :: t in j.transitions ==> Append(command, t) in writes)
      && (j.finalReceipt.Some? ==> Finish(command, j.finalReceipt.value) in writes)
      && (j.terminalReceipt.Some? ==> Terminalize(command, j.terminalReceipt.value) in writes)
    }

    ghost function Log(): Journal
      reads this
      requires item.Some?
    {
      Decode(item.value)
    }

    /** The phases durable at this moment. */
    ghost function Durable(): set<Phase>
      reads this
    {
      if item.Some? then Phases(Log().transitions) else {}
    }

    constructor (c: Command, quiet: bool)
      ensures Valid() && command == c && calm == quiet && item.None? && sent == [] && puts == []
    {
      command, calm := c, quiet;
      item, sent, puts := None, [], [];
    }

    /** One of the updates sent so far is delivered. */
    method Deliver(w: Write)
      requires Valid() && item.Some? && w in sent
      modifies this`item
      ensures Valid() && item.Some? && Grows(old(Log()), Log())
      ensures item == Some(Land(old(item.value), w))
      ensures old(Condition(w, item.value)) ==> Contains(Log(), w) && Log() == Extend(old(Log()), w)
    {
      hide WellFormed, Condition, Updated, AllWereSent;
      LandKeepsItem(item.value, w, command);
      if Condition(w, item.value) {
        ExtendWasSent(Log(), w);
      } else {
        assert Land(item.value, w) == item.value;
      }
      item := Some(Land(item.value, w));
    }

    lemma ExtendWasSent(j: Journal, w: Write)
      requires AllWereSent(j, sent) && w in sent && w.command == command
      ensures AllWereSent(Extend(j, w), sent) && Extend(j, w).reservation == j.reservation
    {
    }

    lemma MoreWasSent(j: Journal, w: Write)
      requires AllWereSent(j, sent)
      ensures AllWereSent(j, sent + [w])
    {
    }

    /** One of the puts sent so far is delivered: it creates the item, or finds one. */
    method DeliverPut(r: Record)
      requires Valid() && r in puts
      modifies this`item
      ensures Valid() && item == if old(item).None? then Some(Encode(Fresh(command, r))) else old(item)
      ensures old(item).None? ==> item.Some? && Log() == Fresh(command, r)
    {
      if item.None? {
        var j := Fresh(command, r);
        DecodeEncode(j);
        assert JournalOk(j, command);
        item := Some(Encode(j));
      }
    }

    /** Time passes: any puts and updates ever sent land, in any order and any number of times. */
    method Settle()
      requires Valid()
      modifies this`item
      ensures Valid() && (old(item).Some? ==> item.Some? && Grows(old(Log()), Log()))
      ensures old(item).None? && item.Some? ==> Log() == Fresh(command, Log().reservation)
      ensures old(item).Some? && sent == [] ==> item == old(item)
      ensures calm ==> item == old(item)
    {
      hide WellFormed, ItemOk, AllWereSent;
      if calm {
        return;
      }
      if item.None? && puts != [] {
        var lands: bool := *;
        if lands {
          assert puts[0] in puts;
          var r :| r in puts;
          DeliverPut(r);
        }
      }
      if item.Some? {
        SettleUpdates();
      }
    }

    method SettleUpdates()
      requires Valid() && item.Some?
      modifies this`item
      ensures Valid() && item.Some? && Grows(old(Log()), Log())
      ensures sent == [] ==> item == old(item)
    {
      hide WellFormed, ItemOk, AllWereSent;
      var deliveries: nat := *;
      while deliveries > 0
        invariant Valid() && item.Some? && Grows(old(Log()), Log())
        invariant sent == [] ==> item == old(item)
      {
        if sent != [] {
          assert sent[0] in sent;
          var w :| w in sent;
          Deliver(w);
        }
        deliveries := deliveries - 1;
      }
    }

    /** The `accept` tests: the stored attribute holds exactly what was sent. */
    predicate Shows(w: Write)
      reads this
      requires item.Some?
    {
      match w
      case Append(_, t) =>
        && t.Transition? && 0 <= t.sequence
        && t.sequence in item.value.slots && item.value.slots[t.sequence] == B(t)
      case Finish(_, r) => item.value.finalReceipt == Some(B(r))
      case Terminalize(_, r) => item.value.terminalReceipt == Some(B(r))
    }

    lemma ShownIsContained(w: Write)
      requires Valid() && item.Some? && Shows(w)
      ensures Contains(Log(), w)
    {
      DecodeOk(item.value, command);
      match w {
        case Append(_, t) => assert t.sequence in Slots(Log().transitions);
        case _ =>
      }
    }

    /** `updateOnce`: one conditional update, sent once and never retried; after an error one read decides. */
    method UpdateOnce(w: Write) returns (ok: bool)
      requires Valid() && item.Some? && WellFormed(w) && w.command == command
      modifies this`item, this`sent
      ensures Valid() && item.Some? && sent == old(sent) + [w] && Grows(old(Log()), Log())
      ensures ok ==> Contains(Log(), w)
      ensures calm && old(Condition(w, item.value)) ==> ok && Log() == Extend(old(Log()), w)
      ensures calm && !old(Condition(w, item.value)) ==> item == old(item) && (ok <==> Shows(w))
    {
      hide WellFormed, ItemOk, Condition, Contains, Extend, AllWereSent;
      MoreWasSent(Log(), w);
      sent := sent + [w];
      Settle();
      var processed, acknowledged, readable: bool := *, *, *;
      if processed || calm {
        var passes := Condition(w, item.value);
        Deliver(w);
        if passes && (acknowledged || calm) {
          return true;
        }
      }
      Settle();
      if !readable && !calm {
        return false;
      }
      ok := Shows(w);
      if ok {
        ShownIsContained(w);
      }
    }

    /**
      `reserve`: one conditional put, sent once; after an error one read decides. It passes only on a journal that
      carries this very reservation, and where nothing fails on exactly those and on a free key.
     */
    method Reserve(reservation: Record) returns (ok: bool)
      requires Valid() && ReservationFits(reservation, command)
      modifies this`item, this`puts
      ensures Valid() && puts == old(puts) + [reservation]
      ensures old(item).Some? ==> item.Some? && Log().reservation == old(Log()).reservation
      ensures ok ==> item.Some? && Log().reservation == reservation
      ensures old(item).None? && item.Some? ==> Log() == Fresh(command, Log().reservation)
      ensures calm ==> (ok <==> old(item).None? || old(Log()).reservation == reservation)
      ensures calm && old(item).Some? ==> item == old(item)
    {
      hide WellFormed, AllWereSent;
      puts := puts + [reservation];
      Settle();
      var processed, acknowledged, readable: bool := *, *, *;
      if processed || calm {
        var free := item.None?;
        DeliverPut(reservation);
        if free && (acknowledged || calm) {
          return true;
        }
      }
      Settle();
      if item.None? || (!readable && !calm) {
        return false;
      }
      DecodeOk(item.value, command);
      ok := item.value.reservation == Some(B(reservation));
    }
  }

  /**
    Any number of attempts to reserve one key, earlier puts still landing during later attempts: two that pass sent
    one and the same reservation.
   */
  method ReserveEach(table: ControllerTable, reservations: seq<Record>) returns (passed: seq<bool>)
    requires table.Valid() && forall r :: r in reservations ==> ReservationFits(r, table.command)
    modifies table`item, table`puts
    ensures table.Valid() && |passed| == |reservations| && table.puts == old(table.puts) + reservations
    ensures forall i, k :: 0 <= i < k < |passed| && passed[i] && passed[k] ==> reservations[i] == reservations[k]
    ensures forall i :: 0 <= i < |passed| && passed[i] ==>
              table.item.Some? && table.Log().reservation == reservations[i]
  {
    hide ControllerTable.Valid;
    passed := [];
    for n := 0 to |reservations|
      invariant table.Valid() && |passed| == n && table.puts == old(table.puts) + reservations[..n]
      invariant forall i :: 0 <= i < n && passed[i] ==>
                  table.item.Some? && table.Log().reservation == reservations[i]
    {
      var ok := table.Reserve(reservations[n]);
      passed := passed + [ok];
      assert reservations[..n + 1] == reservations[..n] + [reservations[n]];
    }
  }

  function Fresh(c: Command, reservation: Record): Journal {
    Journal(c, Id(c.globalKeySha256), reservation, [], None, None)
  }
}
