/**
  A whole operation: one provider controller run, dying or failing wherever it may, and after it any number of
  reconciliation runs that do not overlap.
 */
module FreshClusterLifecycle {
  import opened Options
  import opened FreshClusterJournal
  import opened FreshClusterWrites
  import opened FreshClusterTable
  import opened FreshClusterRecorder
  import Controller = FreshClusterController
  import opened FreshClusterReconciliation

  /** A receipt that closes a journal and claims that no access is left. */
  ghost predicate ClaimsRevoked(w: Write) {
    Closes(w) ==> w.receipt.Receipt? && w.receipt.adminSqlPrincipalAbsent && w.receipt.ingressEmpty
  }

  /** The cloud as the main controller expects it: nobody else's administrator, nobody else's ingress. */
  predicate Unclaimed(c: Command, users: set<User>, entries: set<Entry>) {
    entries == {} && (c.clusterMode.CREATE_NEW? ==> BootstrapAdmin !in users)
  }

  /** The cloud a run can finish on: no ingress at all, and of the SQL users just root and an administrator to adopt. */
  predicate Expected(c: Command, users: set<User>, entries: set<Entry>) {
    && entries == {}
    && users == {Root} + if c.clusterMode.ADOPT_VERIFIED_EXISTING? then {BootstrapAdmin} else {}
  }

  /** What holds once a run has stopped, however it stopped. */
  ghost predicate Stopped(table: ControllerTable, world: CloudWorld, users0: set<User>, entries0: set<Entry>)
    reads table, world
  {
    && table.Valid() && WrittenAhead(world.calls)
    && (forall w :: w in table.sent ==> ClaimsRevoked(w))
    && (Unclaimed(table.command, users0, entries0) && (exists w :: w in table.sent && Closes(w)) ==>
          RevokedButForLate(world.sql, world.ingress))
  }

  ghost predicate HasFinish(sent: seq<Write>) {
    exists w :: w in sent && w.Finish?
  }

  /**
    If nothing arrived late, the receipts of the main run are true exactly on a cloud that was unclaimed when it began.
    A final receipt is true even so, and nothing can arrive after it.
   */
  ghost predicate TrueIffUnclaimed(table: ControllerTable, world: CloudWorld, users0: set<User>, entries0: set<Entry>)
    reads table, world
  {
    && ((exists w :: w in table.sent && Closes(w)) ==>
          && entries0 <= world.ingress.entries <= entries0 + world.ingress.late
          && (NothingLate(world.sql, world.ingress) ==>
                (Revoked(world.sql, world.ingress) <==> Unclaimed(table.command, users0, entries0))))
    && (HasFinish(table.sent) ==>
          Revoked(world.sql, world.ingress) && NothingPending(world.sql, world.ingress))
  }

  /** A finalised or terminalised run has its receipt in the journal, claiming that no access is left. */
  ghost predicate Receipted(table: ControllerTable, result: Controller.Ending)
    reads table
  {
    && (result.Finalized? ==> table.item.Some? && table.Log().finalReceipt.Some?)
    && (result.FailedAndTerminalized? ==>
          && table.item.Some? && table.Log().terminalReceipt.Some?
          && ClaimsRevoked(Terminalize(table.command, table.Log().terminalReceipt.value)))
  }

  /** How a calm run ends. */
  function CalmEnding(c: Command, users: set<User>, entries: set<Entry>, prompt: bool): Controller.Ending {
    if Expected(c, users, entries) && prompt then Controller.Finalized else Controller.FailedAndTerminalized
  }

  /** A cloud no run of this operation has called yet. */
  ghost predicate Untouched(world: CloudWorld)
    reads world
  {
    world.calls == [] && NothingPending(world.sql, world.ingress) && NothingLate(world.sql, world.ingress)
  }

  /** `runFreshClusterProviderController` from its strongly consistent read on. */
  method RunController(table: ControllerTable, world: CloudWorld, reservation: Record, entry: Entry)
    returns (result: Option<Controller.Ending>)
    requires table.Valid() && ReservationFits(reservation, table.command) && world.table == table
    requires table.item.None? ==> Untouched(world)
    modifies table, world
    ensures table.Valid() && old(world.calls) <= world.calls && (table.item.None? ==> world.calls == [])
    ensures old(table.item).Some? ==> result.None? && unchanged(table) && unchanged(world)
    ensures old(table.item).None? ==>
              && Stopped(table, world, old(world.sql.users), old(world.ingress.entries))
              && TrueIffUnclaimed(table, world, old(world.sql.users), old(world.ingress.entries))
              && Controller.OwnCalls(world.calls) && Controller.FewDeletes([], world.calls, 2, 2)
    ensures old(table.item).None? ==> Controller.PendingIsUnobserved(table, world)
    ensures old(table.item).None? && table.calm && world.calm ==> NothingLate(world.sql, world.ingress)
    ensures result.Some? ==> table.item.Some? && Receipted(table, result.value)
    ensures table.calm && world.calm && !world.prompt && old(table.item).None? && old(world.ingress.entries) == {} ==>
              world.ingress.pending == {entry}
    ensures table.calm && world.calm && old(table.item).None? ==>
              result == Some(CalmEnding(table.command, old(world.sql.users), old(world.ingress.entries), world.prompt))
  {
    ValidParts(table);
    hide FreshClusterTable.ControllerTable.Valid, Revoked, RevokedButForLate, Receipted, Unclaimed, CalmEnding;
    var readable := Check(table.calm);
    if !readable.Done? || table.item.Some? {
      return None;
    }
    var reserved := table.Reserve(reservation);
    var open := Check(table.calm);
    if !reserved || !open.Done? {
      return None;
    }
    var executed := ExecuteReserved(table, world, reservation, entry);
    return Some(executed);
  }

  /** The run that holds a fresh reservation. */
  method ExecuteReserved(table: ControllerTable, world: CloudWorld, reservation: Record, entry: Entry)
    returns (result: Controller.Ending)
    requires table.Valid() && ReservationFits(reservation, table.command) && world.table == table
    requires table.item.Some? && table.Log() == Fresh(table.command, reservation) && table.sent == []
    requires Untouched(world)
    modifies table, world
    ensures table.Valid() && table.item.Some? && Controller.PendingIsUnobserved(table, world)
    ensures table.calm && world.calm ==> NothingLate(world.sql, world.ingress)
    ensures Stopped(table, world, old(world.sql.users), old(world.ingress.entries))
    ensures TrueIffUnclaimed(table, world, old(world.sql.users), old(world.ingress.entries))
    ensures Controller.OwnCalls(world.calls) && Controller.FewDeletes([], world.calls, 2, 2)
    ensures Receipted(table, result)
    ensures table.calm && world.calm && !world.prompt && old(world.ingress.entries) == {} ==>
              world.ingress.pending == {entry}
    ensures table.calm && world.calm ==>
              result == CalmEnding(table.command, old(world.sql.users), old(world.ingress.entries), world.prompt)
  {
    FreshIsOk(table.command, reservation);
    var recorder := new Recorder(table, Fresh(table.command, reservation));
    assert Controller.OwnCalls(world.calls);
    var run := new Controller.FreshClusterRun(table, world, recorder);
    hide FreshClusterTable.ControllerTable.Valid, Controller.FreshClusterRun.Inv;
    assert table.calm ==> run.Smooth(0);
    hide Controller.FreshClusterRun.Smooth, WrittenAhead;
    result := run.Execute(entry);
    ReceiptsWereSent(table);
  }

  lemma FreshIsOk(c: Command, reservation: Record)
    requires ReservationFits(reservation, c)
    ensures JournalOk(Fresh(c, reservation), c) && IsOpen(Fresh(c, reservation))
  {
  }

  /**
    Operations that do not overlap, whatever fails in them and whatever lands late. Every mutation was written ahead.
    Of all the deletes in the log, those dispatched behind a reconciliation's own announcement are at most one of the
    administrator and one of an ingress entry whose creation had been announced; and there are at most three in all.
    Every receipt sent claims that no access is left. On a cloud nobody else had claimed that is true, as soon as one
    has been sent and even if it never landed, of all access but what arrived late; and once a final receipt has been
    sent it is true of all access, and stays true.
   */
  method Operate(table: ControllerTable, world: CloudWorld, reservation: Record, entry: Entry, runs: nat)
    requires table.Valid() && table.item.None? && ReservationFits(reservation, table.command)
    requires world.table == table && Untouched(world)
    modifies table, world
    ensures Stopped(table, world, old(world.sql.users), old(world.ingress.entries))
    ensures RecoveryAdminDeletes(world.calls) <= 1 && RecoveryIngressDeletes(world.calls) <= 1
    ensures forall c :: c in world.calls && IsRecoveryIngressDelete(c) ==> INGRESS_CREATE_DISPATCHING in c.durable
    ensures AdminDeletes(world.calls) <= 3 && IngressDeletes(world.calls) <= 3
    ensures table.item.Some? ==> Acceptable(table.item.value, table.command)
    ensures HasFinish(table.sent) ==> Revoked(world.sql, world.ingress) && NothingPending(world.sql, world.ingress)
    ensures table.item.Some? && !IsOpen(table.Log()) &&
              Unclaimed(table.command, old(world.sql.users), old(world.ingress.entries)) ==>
              RevokedButForLate(world.sql, world.ingress)
  {
    hide FreshClusterTable.ControllerTable.Valid, Revoked, RevokedButForLate, Unclaimed, WrittenAhead;
    hide Controller.OwnCalls;
    ValidParts(table);
    var main := RunController(table, world, reservation, entry);
    ghost var before := world.calls;
    table.Settle();
    if table.item.Some? {
      ReconcileAfter(table, world, runs, old(world.sql.users), old(world.ingress.entries));
    }
    CountedCalls(before, world.calls);
    ValidParts(table);
  }

  /** The reconciliation runs of an operation, once its main run has stopped. */
  method ReconcileAfter(table: ControllerTable, world: CloudWorld, runs: nat, ghost users0: set<User>,
                        ghost entries0: set<Entry>)
    requires Stopped(table, world, users0, entries0) && table.item.Some? && world.table == table
    modifies table, world
    ensures Stopped(table, world, users0, entries0) && table.item.Some? && old(world.calls) <= world.calls
    ensures HasFinish(table.sent) ==> HasFinish(old(table.sent))
    ensures old(Revoked(world.sql, world.ingress) && NothingPending(world.sql, world.ingress)) ==>
              Revoked(world.sql, world.ingress) && NothingPending(world.sql, world.ingress)
    ensures var calls := world.calls[|old(world.calls)|..];
      AdminDeletes(calls) <= 1 && IngressDeletes(calls) <= 1 && forall c :: c in calls ==> Authorised(c)
  {
    hide FreshClusterTable.ControllerTable.Valid, Unclaimed;
    ghost var calls0, sent0 := world.calls, table.sent;
    ReconcileRepeatedly(table, world, runs);
    AuthorisedIsWrittenAhead(calls0, world.calls);
    StillTruthful(sent0, table.sent, world.sql, world.ingress);
    NoNewFinish(sent0, table.sent, world.sql, world.ingress);
  }

  /** Reconciliation runs send no final receipt. */
  lemma NoNewFinish(before: seq<Write>, after: seq<Write>, sql: Accounts, ingress: Allowlist)
    requires TruthfulSince(before, after, sql, ingress)
    ensures HasFinish(after) ==> HasFinish(before)
  {
    if w :| w in after && w.Finish? {
      var i :| 0 <= i < |after| && after[i] == w;
      assert i < |before|;
      assert before[i] == w && w in before;
    }
  }

  lemma StillTruthful(before: seq<Write>, after: seq<Write>, sql: Accounts, ingress: Allowlist)
    requires TruthfulSince(before, after, sql, ingress) && forall w :: w in before ==> ClaimsRevoked(w)
    ensures forall w :: w in after ==> ClaimsRevoked(w)
    ensures (exists w :: w in after && Closes(w)) ==>
              (exists w :: w in before && Closes(w)) || RevokedButForLate(sql, ingress)
  {
    forall w | w in after && Closes(w)
      ensures ClaimsRevoked(w) && ((exists v :: v in before && Closes(v)) || RevokedButForLate(sql, ingress))
    {
      var i :| 0 <= i < |after| && after[i] == w;
      if i < |before| {
        assert before[i] == w && w in before;
      }
    }
  }

  /** What the whole log of an operation says of its deletes. */
  lemma CountedCalls(before: seq<Call>, after: seq<Call>)
    requires Controller.OwnCalls(before) && Controller.FewDeletes([], before, 2, 2) && before <= after
    requires var calls := after[|before|..];
      AdminDeletes(calls) <= 1 && IngressDeletes(calls) <= 1 && forall c :: c in calls ==> Authorised(c)
    ensures RecoveryAdminDeletes(after) <= 1 && RecoveryIngressDeletes(after) <= 1
    ensures forall c :: c in after && IsRecoveryIngressDelete(c) ==> INGRESS_CREATE_DISPATCHING in c.durable
    ensures AdminDeletes(after) <= 3 && IngressDeletes(after) <= 3
  {
    var calls := after[|before|..];
    assert after == before + calls;
    forall c | c in before ensures !IsRecoveryAdminDelete(c) && !IsRecoveryIngressDelete(c) {
      assert Controller.Rank(RECOVERY_ADMIN_DELETE_DISPATCHING) == 43;
      assert Controller.Rank(RECOVERY_INGRESS_DELETE_DISPATCHING) == 43;
    }
    RecoveryDeletesAfter(before, calls);
    DeletesAdd(before, calls);
    forall c | c in after && IsRecoveryIngressDelete(c) ensures INGRESS_CREATE_DISPATCHING in c.durable {
      assert c in calls && Authorised(c);
    }
  }

  lemma {:induction false} DeletesAdd(before: seq<Call>, after: seq<Call>)
    ensures AdminDeletes(before + after) == AdminDeletes(before) + AdminDeletes(after)
    ensures IngressDeletes(before + after) == IngressDeletes(before) + IngressDeletes(after)
    decreases |after|
  {
    var all := before + after;
    if after == [] {
      assert all == before;
    } else {
      var front := after[..|after| - 1];
      DeletesAdd(before, front);
      assert all[..|all| - 1] == before + front && all[|all| - 1] == after[|after| - 1];
    }
  }

  lemma ValidParts(table: ControllerTable)
    requires table.Valid()
    ensures table.item.None? ==> table.sent == []
    ensures table.item.Some? ==> Acceptable(table.item.value, table.command)
    ensures table.item.Some? && !IsOpen(table.Log()) ==> exists w :: w in table.sent && Closes(w)
  {
    if table.item.Some? {
      OkIsAcceptable(table.item.value, table.command);
      var j := table.Log();
      if j.finalReceipt.Some? {
        assert Closes(Finish(table.command, j.finalReceipt.value));
      } else if j.terminalReceipt.Some? {
        assert Closes(Terminalize(table.command, j.terminalReceipt.value));
      }
    }
  }

  lemma ReceiptsWereSent(table: ControllerTable)
    requires table.Valid() && table.item.Some?
    ensures table.Log().terminalReceipt.Some? ==>
              Terminalize(table.command, table.Log().terminalReceipt.value) in table.sent
  {
  }

  lemma AuthorisedIsWrittenAhead(before: seq<Call>, after: seq<Call>)
    requires before <= after && WrittenAhead(before)
    requires forall c :: c in after[|before|..] ==> Authorised(c)
    ensures WrittenAhead(after)
  {
    forall c | c in after ensures exists p :: p in DispatchPhases(c.action) && p in c.durable {
      if c !in before {
        assert after == before + after[|before|..];
        assert Authorised(c);
        var p :=
          if c.action.DeleteSqlAdmin? then RECOVERY_ADMIN_DELETE_DISPATCHING else RECOVERY_INGRESS_DELETE_DISPATCHING;
        assert p in DispatchPhases(c.action) && p in c.durable;
      }
    }
  }

  // ----- When a receipt is false ------------------------------------------------------------------

  /** The journal holds a terminal receipt that claims no access is left. */
  ghost predicate ClaimsStored(table: ControllerTable)
    reads table
  {
    && table.item.Some? && table.Log().terminalReceipt.Some?
    && ClaimsRevoked(Terminalize(table.command, table.Log().terminalReceipt.value))
  }

  /**
    Where the claim is false: a run that is to create an administrator and finds one there fails, has nothing of its
    own to take away, and its terminal receipt reports an administrator absent that is present.
   */
  method MisreportedAdministrator(table: ControllerTable, world: CloudWorld, reservation: Record, entry: Entry)
    returns (result: Option<Controller.Ending>)
    requires table.Valid() && ReservationFits(reservation, table.command) && world.table == table
    requires table.calm && world.calm && table.item.None? && Untouched(world)
    requires table.command.clusterMode.CREATE_NEW?
    requires BootstrapAdmin in world.sql.users && world.ingress.entries == {} && world.prompt
    modifies table, world
    ensures result == Some(Controller.FailedAndTerminalized) && ClaimsStored(table)
    ensures BootstrapAdmin in world.sql.users && world.ingress.entries == {}
  {
    ghost var users0 := world.sql.users;
    assert !Expected(table.command, users0, {}) by { assert BootstrapAdmin !in {Root} + {}; }
    result := RunController(table, world, reservation, entry);
    ReceiptsWereSent(table);
    assert Closes(Terminalize(table.command, table.Log().terminalReceipt.value));
  }

  /**
    The other half: a run that finds an entry in the allowlist before it added its own fails, has nothing of its own
    to take away, and its terminal receipt reports an allowlist empty that is not.
   */
  method MisreportedIngress(table: ControllerTable, world: CloudWorld, reservation: Record, entry: Entry)
    returns (result: Option<Controller.Ending>)
    requires table.Valid() && ReservationFits(reservation, table.command) && world.table == table
    requires table.calm && world.calm && table.item.None? && Untouched(world) && world.ingress.entries != {}
    modifies table, world
    ensures result == Some(Controller.FailedAndTerminalized) && ClaimsStored(table)
    ensures world.ingress.entries == old(world.ingress.entries)
  {
    result := RunController(table, world, reservation, entry);
    ReceiptsWereSent(table);
    assert Closes(Terminalize(table.command, table.Log().terminalReceipt.value));
  }

  /**
    And where it becomes false: on any cloud with an empty allowlist whose creates throw and are slow, the run sees
    that its entry is not there, reports so, and the entry arrives after the receipt was stored.
   */
  method SlowIngress(table: ControllerTable, world: CloudWorld, reservation: Record, entry: Entry)
    returns (result: Option<Controller.Ending>)
    requires table.Valid() && ReservationFits(reservation, table.command) && world.table == table
    requires table.calm && world.calm && !world.prompt && table.item.None? && Untouched(world)
    requires world.ingress.entries == {}
    modifies table, world
    ensures result == Some(Controller.FailedAndTerminalized) && ClaimsStored(table)
    ensures world.ingress.entries == world.ingress.late == {entry}
  {
    result := RunController(table, world, reservation, entry);
    ReceiptsWereSent(table);
    assert Closes(Terminalize(table.command, table.Log().terminalReceipt.value));
    world.ArriveEntries({entry});
  }

  /** A cloud without access stays so whatever arrives exactly if no create is pending. */
  lemma StaysRevokedIffNothingPending(sql: Accounts, ingress: Allowlist)
    requires Revoked(sql, ingress)
    ensures NothingPending(sql, ingress) <==>
            forall sql', ingress' ::
              AdminMayArrive(sql, sql') && EntriesMayArrive(ingress, ingress') ==> Revoked(sql', ingress')
  {
    var sql' := if sql.pending then Accounts(sql.users + {BootstrapAdmin}, false, true) else sql;
    var ingress' := Allowlist(ingress.entries + ingress.pending, {}, ingress.late + ingress.pending);
    assert AdminMayArrive(sql, sql') && EntriesMayArrive(ingress, ingress');
    assert Revoked(sql', ingress') <==> NothingPending(sql, ingress);
  }
}
