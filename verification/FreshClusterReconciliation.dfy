/**
  The reconciliation controller: a separate run that, after the provider controller stopped, revokes the access it
  may have left behind. It may itself die at any call and be started again, but two never overlap.
 */
module FreshClusterReconciliation {
  import opened Options
  import opened FreshClusterJournal
  import opened FreshClusterWrites
  import opened FreshClusterTable
  import opened FreshClusterRecorder

  /** A mutation the reconciler may dispatch: one of the two deletes, with what authorises it already durable. */
  predicate Authorised(c: Call) {
    match c.action
    case DeleteSqlAdmin => RECOVERY_ADMIN_DELETE_DISPATCHING in c.durable
    case DeleteIngress(_) => RECOVERY_INGRESS_DELETE_DISPATCHING in c.durable && INGRESS_CREATE_DISPATCHING in c.durable
    case _ => false
  }

  /** At most one delete of each kind, and none of a kind whose dispatch phase is not among the given ones. */
  ghost predicate OnceEach(calls: seq<Call>, phases: set<Phase>) {
    && (forall c :: c in calls ==> Authorised(c))
    && AdminDeletes(calls) <= (if RECOVERY_ADMIN_DELETE_DISPATCHING in phases then 1 else 0)
    && IngressDeletes(calls) <= (if RECOVERY_INGRESS_DELETE_DISPATCHING in phases then 1 else 0)
  }

  ghost function Since(calls: seq<Call>, from: nat): seq<Call> {
    if from <= |calls| then calls[from..] else []
  }

  /** One more authorised delete of a kind not deleted so far. */
  lemma OneMore(calls: seq<Call>, from: nat, c: Call, phases: set<Phase>)
    requires from <= |calls| && OnceEach(Since(calls, from), phases) && Authorised(c)
    requires c.action.DeleteSqlAdmin? ==>
              AdminDeletes(Since(calls, from)) == 0 && RECOVERY_ADMIN_DELETE_DISPATCHING in phases
    requires c.action.DeleteIngress? ==>
              IngressDeletes(Since(calls, from)) == 0 && RECOVERY_INGRESS_DELETE_DISPATCHING in phases
    ensures OnceEach(Since(calls + [c], from), phases)
  {
    var front := Since(calls, from);
    assert Since(calls + [c], from) == front + [c];
    assert (front + [c])[..|front|] == front;
  }

  ghost predicate Closes(w: Write) {
    !w.Append?
  }

  /** Nothing but appends has been sent after the given writes. */
  ghost predicate OnlyAppends(base: seq<Write>, sent: seq<Write>) {
    base <= sent && forall k :: |base| <= k < |sent| ==> !Closes(sent[k])
  }

  /** A terminal that claims no access is left. */
  ghost predicate ClosesRevoked(w: Write) {
    w.Terminalize? && w.receipt.Receipt? && w.receipt.adminSqlPrincipalAbsent && w.receipt.ingressEmpty
  }

  /**
    Whatever closes the journal among the writes sent after the given ones claims that no access is left, and that is
    true of all access but what arrived late.
   */
  ghost predicate TruthfulSince(base: seq<Write>, sent: seq<Write>, sql: Accounts, ingress: Allowlist) {
    && base <= sent
    && forall k :: |base| <= k < |sent| && Closes(sent[k]) ==> ClosesRevoked(sent[k]) && RevokedButForLate(sql, ingress)
  }

  /**
    Of the users only the bootstrap administrator may be gone, of the entries only those of the operation; and nothing
    is new but what was pending and has arrived.
   */
  ghost predicate OnlyRevokes(c: Command, sql0: Accounts, sql: Accounts, ingress0: Allowlist, ingress: Allowlist) {
    && (sql.pending ==> sql0.pending) && sql.late == (sql0.late || (sql0.pending && !sql.pending))
    && sql.users <= sql0.users + (if sql0.pending && !sql.pending then {BootstrapAdmin} else {})
    && sql0.users <= sql.users + {BootstrapAdmin}
    && ingress.pending <= ingress0.pending && ingress.late == ingress0.late + (ingress0.pending - ingress.pending)
    && ingress.entries <= ingress0.entries + (ingress0.pending - ingress.pending)
    && forall e :: e in ingress0.entries && e !in ingress.entries ==> e.operationId == c.operationId
  }

  ghost predicate OwnEntryOnly(entries: set<Entry>, c: Command) {
    exists e :: entries == {e} && e.operationId == c.operationId
  }

  /** The administrator can be revoked unless a delete was announced before and it is there all the same. */
  predicate AdminRevocable(users: set<User>, phases: set<Phase>) {
    BootstrapAdmin in users ==> RECOVERY_ADMIN_DELETE_DISPATCHING !in phases
  }

  /** So can the ingress, if it is the operation's own entry and the interrupted run announced to create it. */
  ghost predicate IngressRevocable(entries: set<Entry>, phases: set<Phase>, c: Command) {
    entries == {} ||
    (OwnEntryOnly(entries, c) && INGRESS_CREATE_DISPATCHING in phases && RECOVERY_INGRESS_DELETE_DISPATCHING !in phases)
  }

  ghost predicate Revocable(users: set<User>, entries: set<Entry>, phases: set<Phase>, c: Command) {
    AdminRevocable(users, phases) && IngressRevocable(entries, phases, c)
  }

  const RECOVERY_ADMIN: set<Phase> :=
    {RECOVERY_ADMIN_DELETE_DISPATCHING, RECOVERY_ADMIN_DELETE_ACKNOWLEDGEMENT_RECONCILED, RECOVERY_ADMIN_DELETE_ABSENT}

  datatype RecoveryEnding =
    | AlreadyClosed(receipt: Record)
    | AccessRevoked(terminal: Record)
    | Rejected
    | Interrupted

  class Reconciliation {
    const table: ControllerTable
    const world: CloudWorld
    const recorder: Recorder
    /** Where this run's predecessors began, and what had been sent when it began; for the specification only. */
    ghost const from: nat
    ghost const base: seq<Write>
    ghost const log0: Journal
    ghost const sql0: Accounts
    ghost const ingress0: Allowlist
    ghost const calls0: seq<Call>

    var adminAbsent: bool
    var ingressEmpty: bool

    /** An open journal was read: continue at its end. */
    constructor (t: ControllerTable, w: CloudWorld, r: Recorder, ghost start: nat)
      requires r.table == t && w.table == t && r.Synced() && start <= |w.calls|
      requires OnceEach(Since(w.calls, start), r.phases)
      ensures table == t && world == w && recorder == r && from == start && base == t.sent
      ensures log0 == t.Log() && sql0 == w.sql && ingress0 == w.ingress && calls0 == w.calls
      ensures Inv() && !adminAbsent && !ingressEmpty
    {
      table, world, recorder := t, w, r;
      from, base, log0, sql0, ingress0 := start, t.sent, t.Log(), w.sql, w.ingress;
      adminAbsent, ingressEmpty, calls0 := false, false, w.calls;
    }

    ghost predicate Inv()
      reads this, world, recorder, table
    {
      Wired() && Ready() && Once() && Seen()
    }

    /** Controller, recorder and cloud are about one table. */
    ghost predicate Wired() {
      recorder.table == table && world.table == table
    }

    ghost predicate Ready()
      reads recorder, table
    {
      && recorder.table == table && recorder.Synced()
      && OnlyAppends(base, table.sent) && Grows(log0, table.Log())
    }

    ghost predicate Once()
      reads world`calls, recorder`phases
    {
      from <= |world.calls| && calls0 <= world.calls && OnceEach(Since(world.calls, from), recorder.phases)
    }

    /** What the two flags claim is true of the cloud, and nothing but this operation's access was touched. */
    ghost predicate Seen()
      reads this`adminAbsent, this`ingressEmpty, world`sql, world`ingress
    {
      && (adminAbsent ==> BootstrapAdmin in world.sql.users ==> world.sql.late)
      && (ingressEmpty ==> world.ingress.entries <= world.ingress.late)
      && OnlyRevokes(table.command, sql0, world.sql, ingress0, world.ingress)
    }

    predicate Calm() {
      table.calm && world.calm
    }

    /** The `record` closure: a phase already recorded is not recorded again. */
    method Record(phase: Phase, mutationDispatched: bool) returns (o: Outcome)
      requires Inv() && Known(phase)
      modifies recorder`sequence, recorder`previous, recorder`phases, table
      ensures Inv() && recorder.phases <= table.Durable()
      ensures recorder.phases == old(recorder.phases) + (if o.Done? then {phase} else {})
      ensures Calm() && old(recorder.Exact()) ==> o.Done? && recorder.Exact()
    {
      hide Seen, OnceEach, Since, OnlyAppends, FreshClusterTable.ControllerTable.Durable,
        FreshClusterRecorder.Recorder.Exact;
      ReadyPhases();
      if phase in recorder.phases {
        return Done;
      }
      var payload: nat := *;
      ghost var before, writes := recorder.phases, table.sent;
      o := recorder.Append(phase, payload, mutationDispatched);
      OneMoreAppend(writes, table.sent, phase);
      ReadyPhases();
      OnceEachKeeps(Since(world.calls, from), before, recorder.phases);
    }

    lemma OneMoreAppend(before: seq<Write>, after: seq<Write>, phase: Phase)
      requires OnlyAppends(base, before) && |after| == |before| + 1 && before <= after
      requires AppendsPhase(after[|before|], phase)
      ensures OnlyAppends(base, after)
    {
      forall k | |base| <= k < |after| ensures !Closes(after[k]) {
        assert k < |before| ==> after[k] == before[k];
      }
    }

    lemma ReadyPhases()
      requires recorder.table == table && recorder.Synced()
      ensures recorder.phases <= table.Durable()
    {
      recorder.PhasesAreDurable();
    }

    method FindAdmin() returns (o: Outcome, present: bool)
      requires Inv()
      modifies world`sql
      ensures Inv() && (o.Done? ==> (present <==> BootstrapAdmin in world.sql.users))
      ensures Calm() ==> o.Done? && world.sql == old(world.sql)
    {
      hide Ready, Once;
      present := false;
      :- Check(Calm());
      var listed, names := world.ListSqlUsers();
      return if listed then Done else Threw, BootstrapAdmin in names;
    }

    method RequireNoAdmin() returns (o: Outcome)
      requires Inv()
      modifies world`sql
      ensures Inv() && (o.Done? ==> BootstrapAdmin !in world.sql.users)
      ensures Calm() ==> !o.Crashed? && world.sql == old(world.sql)
      ensures Calm() ==> (o.Done? <==> BootstrapAdmin !in world.sql.users)
    {
      hide Inv;
      var present;
      o, present := FindAdmin();
      if o.Done? && present {
        o := Threw;
      }
    }

    method ListEntries() returns (listed: bool, entries: set<Entry>)
      requires Inv()
      modifies world`ingress
      ensures Inv() && (listed ==> entries == world.ingress.entries)
      ensures Calm() ==> listed && world.ingress == old(world.ingress)
    {
      hide Ready, Once;
      listed, entries := world.ListAllowlist();
    }

    /** `discoverTemporaryAllowlistEntry`: no entry, or the one of this operation; anything else throws. */
    method FindEntry() returns (o: Outcome, entry: Option<Entry>)
      requires Inv()
      modifies world`ingress
      ensures Inv() && (Calm() ==> world.ingress == old(world.ingress))
      ensures o.Done? && entry.None? ==> world.ingress.entries == {}
      ensures o.Done? && entry.Some? ==>
                world.ingress.entries == {entry.value} && entry.value.operationId == table.command.operationId
      ensures Calm() ==>
                && !o.Crashed?
                && (o.Done? <==> world.ingress.entries == {} || OwnEntryOnly(world.ingress.entries, table.command))
    {
      hide Inv;
      entry := None;
      :- Check(Calm());
      var listed, entries := ListEntries();
      if !listed || |entries| > 1 {
        return Threw, None;
      }
      if entries == {} {
        return Done, None;
      }
      var e :| e in entries;
      OnlyElement(entries, e);
      assert OwnEntryOnly(entries, table.command) <==>
          e.operationId == table.command.operationId by { Singletons(entries, e); }
      if e.operationId != table.command.operationId {
        return Threw, None;
      }
      return Done, Some(e);
    }

    lemma Singletons(s: set<Entry>, e: Entry)
      requires s == {e}
      ensures forall f :: s == {f} ==> f == e
    {
      forall f | s == {f} ensures f == e {
        assert e in {f};
      }
    }

    lemma OnlyElement(s: set<Entry>, e: Entry)
      requires e in s && |s| <= 1
      ensures s == {e}
    {
      assert |s - {e}| == 0;
    }

    method RequireNoEntry() returns (o: Outcome)
      requires Inv()
      modifies world`ingress
      ensures Inv() && (o.Done? ==> world.ingress.entries == {})
      ensures Calm() ==> !o.Crashed? && world.ingress == old(world.ingress)
      ensures Calm() ==> (o.Done? <==> world.ingress.entries == {})
    {
      hide Inv, OwnEntryOnly;
      var entry;
      o, entry := FindEntry();
      if o.Done? && entry.Some? {
        o := Threw;
      }
    }

    method DeleteAdmin() returns (acknowledged: bool)
      requires Inv() && recorder.phases <= table.Durable()
      requires RECOVERY_ADMIN_DELETE_DISPATCHING in recorder.phases && AdminDeletes(Since(world.calls, from)) == 0
      modifies world`calls, world`sql
      ensures Inv()
      ensures Calm() ==> acknowledged && world.sql.users == old(world.sql.users) - {BootstrapAdmin}
    {
      hide Ready, OnceEach, FreshClusterTable.ControllerTable.Durable;
      OneMore(world.calls, from, Call(DeleteSqlAdmin, world.table.Durable()), recorder.phases);
      acknowledged := world.DeleteAdmin();
    }

    method DeleteIngress(entry: Entry) returns (acknowledged: bool)
      requires Inv() && recorder.phases <= table.Durable() && INGRESS_CREATE_DISPATCHING in recorder.phases
      requires entry.operationId == table.command.operationId
      requires RECOVERY_INGRESS_DELETE_DISPATCHING in recorder.phases && IngressDeletes(Since(world.calls, from)) == 0
      modifies world`calls, world`ingress
      ensures Inv()
      ensures Calm() ==> acknowledged && world.ingress.entries == old(world.ingress.entries) - {entry}
    {
      hide Ready, OnceEach, FreshClusterTable.ControllerTable.Durable;
      OneMore(world.calls, from, Call(Action.DeleteIngress(entry), world.table.Durable()), recorder.phases);
      acknowledged := world.DeleteTemporaryIngress(entry);
    }

    method SeeAdminGone()
      requires Inv() && BootstrapAdmin !in world.sql.users
      modifies this`adminAbsent
      ensures Inv() && adminAbsent
    {
      hide Ready, Once;
      adminAbsent := true;
    }

    method SeeIngressGone()
      requires Inv() && world.ingress.entries == {}
      modifies this`ingressEmpty
      ensures Inv() && ingressEmpty
    {
      hide Ready, Once;
      ingressEmpty := true;
    }

    /** The one delete a run may send, and what follows an error. */
    method DeleteAdminOnce() returns (o: Outcome)
      requires Inv() && recorder.phases <= table.Durable()
      requires RECOVERY_ADMIN_DELETE_DISPATCHING in recorder.phases && AdminDeletes(Since(world.calls, from)) == 0
      modifies world`calls, world`sql, recorder`sequence, recorder`previous, recorder`phases, table
      ensures Inv() && old(recorder.phases) <= recorder.phases <= old(recorder.phases) + RECOVERY_ADMIN
      ensures Calm() && old(recorder.Exact()) ==> o.Done? && recorder.Exact() && BootstrapAdmin !in world.sql.users
    {
      hide Inv, FreshClusterTable.ControllerTable.Durable, FreshClusterRecorder.Recorder.Exact;
      var acknowledged := DeleteAdmin();
      if !acknowledged {
        :- RequireNoAdmin();
        :- Record(RECOVERY_ADMIN_DELETE_ACKNOWLEDGEMENT_RECONCILED, false);
      }
      return Done;
    }

    /** An administrator still present after its recovery delete was announced is never deleted again. */
    method DispatchAdminDelete() returns (o: Outcome)
      requires Inv()
      modifies world`calls, world`sql, recorder`sequence, recorder`previous, recorder`phases, table
      ensures Inv() && old(recorder.phases) <= recorder.phases <= old(recorder.phases) + RECOVERY_ADMIN
      ensures Calm() && old(recorder.Exact()) ==>
                && recorder.Exact() && !o.Crashed?
                && (o.Done? <==> RECOVERY_ADMIN_DELETE_DISPATCHING !in old(recorder.phases))
                && (o.Done? ==> BootstrapAdmin !in world.sql.users)
    {
      hide Ready, Seen, FreshClusterTable.ControllerTable.Durable, FreshClusterRecorder.Recorder.Exact;
      if RECOVERY_ADMIN_DELETE_DISPATCHING in recorder.phases {
        return Threw;
      }
      assert AdminDeletes(Since(world.calls, from)) == 0;
      hide Once;
      :- Check(Calm());
      :- Record(RECOVERY_ADMIN_DELETE_DISPATCHING, true);
      o := DeleteAdminOnce();
    }

    method RevokeAdmin() returns (o: Outcome)
      requires Inv()
      modifies this`adminAbsent, world`calls, world`sql, recorder`sequence, recorder`previous, recorder`phases, table
      ensures Inv() && (o.Done? ==> adminAbsent)
      ensures old(recorder.phases) <= recorder.phases <= old(recorder.phases) + RECOVERY_ADMIN
      ensures Calm() && old(recorder.Exact()) ==>
                && recorder.Exact() && !o.Crashed?
                && (o.Done? <==> AdminRevocable(old(world.sql.users), old(recorder.phases)))
    {
      hide Inv, FreshClusterTable.ControllerTable.Durable, FreshClusterRecorder.Recorder.Exact;
      var present;
      o, present := FindAdmin();
      if !o.Done? {
        return;
      }
      if present {
        :- DispatchAdminDelete();
      }
      :- RequireNoAdmin();
      SeeAdminGone();
      o := Record(RECOVERY_ADMIN_DELETE_ABSENT, false);
    }

    /** An entry is deleted only if the interrupted run announced that it would create one. */
    method DispatchIngressDelete(entry: Entry) returns (o: Outcome)
      requires Inv() && entry.operationId == table.command.operationId
      modifies world`calls, world`ingress, recorder`sequence, recorder`previous, recorder`phases, table
      ensures Inv()
      ensures Calm() && old(recorder.Exact()) && old(world.ingress.entries) == {entry} ==>
                && recorder.Exact() && !o.Crashed?
                && (o.Done? <==> INGRESS_CREATE_DISPATCHING in old(recorder.phases) &&
                                 RECOVERY_INGRESS_DELETE_DISPATCHING !in old(recorder.phases))
                && (o.Done? ==> world.ingress.entries == {})
    {
      hide Ready, Seen, FreshClusterTable.ControllerTable.Durable, FreshClusterRecorder.Recorder.Exact;
      if INGRESS_CREATE_DISPATCHING !in recorder.phases || RECOVERY_INGRESS_DELETE_DISPATCHING in recorder.phases {
        return Threw;
      }
      assert IngressDeletes(Since(world.calls, from)) == 0;
      hide Once;
      :- Check(Calm());
      :- Record(RECOVERY_INGRESS_DELETE_DISPATCHING, true);
      var acknowledged := DeleteIngress(entry);
      if !acknowledged {
        :- RequireNoEntry();
        :- Record(RECOVERY_INGRESS_DELETE_ACKNOWLEDGEMENT_RECONCILED, false);
      }
      return Done;
    }

    method RevokeIngress() returns (o: Outcome)
      requires Inv()
      modifies this`ingressEmpty, world`calls, world`ingress, recorder`sequence, recorder`previous, recorder`phases,
               table
      ensures Inv() && (o.Done? ==> ingressEmpty)
      ensures Calm() && old(recorder.Exact()) ==>
                && recorder.Exact() && !o.Crashed?
                && (o.Done? <==> IngressRevocable(old(world.ingress.entries), old(recorder.phases), table.command))
    {
      hide Inv, FreshClusterTable.ControllerTable.Durable, FreshClusterRecorder.Recorder.Exact;
      var entry;
      o, entry := FindEntry();
      if !o.Done? {
        return;
      }
      if entry.Some? {
        :- DispatchIngressDelete(entry.value);
      }
      :- RequireNoEntry();
      SeeIngressGone();
      o := Record(RECOVERY_INGRESS_DELETE_ABSENT, false);
    }

    /** The two sections each survive the failure of the other; a dead process survives nothing. */
    method RevokeBoth() returns (o: Outcome)
      requires Inv()
      modifies this, world, recorder, table
      ensures Inv() && (o.Done? ==> adminAbsent && ingressEmpty)
      ensures Calm() && old(recorder.Exact()) ==>
                && recorder.Exact() && !o.Crashed?
                && (o.Done? <==> Revocable(old(world.sql.users), old(world.ingress.entries),
                                           old(recorder.phases), table.command))
    {
      hide Inv, FreshClusterRecorder.Recorder.Exact;
      var admin := RevokeAdmin();
      if admin.Crashed? {
        return Crashed;
      }
      var ingress := RevokeIngress();
      if ingress.Crashed? {
        return Crashed;
      }
      return if admin.Done? && ingress.Done? && adminAbsent && ingressEmpty then Done else Threw;
    }

    method Revoke() returns (o: Outcome)
      requires Inv()
      modifies this, world, recorder, table
      ensures Inv() && (o.Done? ==> adminAbsent && ingressEmpty && RECOVERY_ACCESS_REVOKED in recorder.phases)
      ensures Calm() && old(recorder.Exact()) ==>
                && recorder.Exact() && !o.Crashed?
                && (o.Done? <==> Revocable(old(world.sql.users), old(world.ingress.entries),
                                           old(recorder.phases), table.command))
    {
      hide Inv, FreshClusterRecorder.Recorder.Exact, Revocable;
      StartingChangesNothing(world.sql.users, world.ingress.entries, recorder.phases, table.command);
      :- Check(Calm());
      :- Record(RECOVERY_CLEANUP_STARTED, false);
      :- RevokeBoth();
      o := Record(RECOVERY_ACCESS_REVOKED, false);
    }

    lemma StartingChangesNothing(users: set<User>, entries: set<Entry>, phases: set<Phase>, c: Command)
      ensures Revocable(users, entries, phases + {RECOVERY_CLEANUP_STARTED}, c) <==>
                Revocable(users, entries, phases, c)
    {
    }

    lemma InvParts()
      requires Inv()
      ensures recorder.table == table && recorder.Synced()
      ensures OnlyAppends(base, table.sent) && Grows(log0, table.Log())
      ensures Once() && OnlyRevokes(table.command, sql0, world.sql, ingress0, world.ingress)
      ensures adminAbsent && ingressEmpty ==> RevokedButForLate(world.sql, world.ingress)
    {
    }

    function TerminalOf(secretRetained: bool): Record
      reads recorder
    {
      Receipt(table.command.commandSha256, table.command.operationId, recorder.previous, recorder.sequence,
              FAILED_CLUSTER_RETAINED_ACCESS_REVOKED, true, true, secretRetained)
    }

    lemma TerminalIsWellFormed(secretRetained: bool)
      requires recorder.table == table && recorder.Synced()
      ensures var w := Terminalize(table.command, TerminalOf(secretRetained));
        WellFormed(w) && Previous(w) == recorder.previous
    {
    }

    /**
      The run from an open journal on. It closes the journal only after complete readbacks of its own showed the
      administrator absent and the allowlist empty, and only with a receipt saying so.
     */
    method Run(secretRetained: bool) returns (result: RecoveryEnding)
      requires Inv()
      modifies this, world, recorder, table
      ensures recorder.table == table && recorder.Synced() && Once()
      ensures Grows(log0, table.Log())
      ensures OnlyRevokes(table.command, sql0, world.sql, ingress0, world.ingress)
      ensures TruthfulSince(base, table.sent, world.sql, world.ingress)
      ensures result.AccessRevoked? ==>
                table.Log().terminalReceipt == Some(result.terminal) && RevokedButForLate(world.sql, world.ingress)
      ensures !result.AlreadyClosed?
      ensures Calm() && old(recorder.Exact()) ==>
                && (result.AccessRevoked? <==>
                    Revocable(old(world.sql.users), old(world.ingress.entries), old(recorder.phases), table.command))
                && (result.Rejected? <==> !result.AccessRevoked?)
    {
      hide Inv, FreshClusterRecorder.Recorder.Synced, Once, RevokedButForLate, OnlyRevokes;
      var revoked := Revoke();
      InvParts();
      if !revoked.Done? {
        return if revoked.Crashed? then Interrupted else Rejected;
      }
      var terminal := TerminalOf(secretRetained);
      TerminalIsWellFormed(secretRetained);
      var closed := recorder.Close(Terminalize(table.command, terminal));
      return match closed
        case Done => AccessRevoked(terminal)
        case Threw => Rejected
        case Crashed => Interrupted;
    }
  }

  /** A receipt that a reconciler may hand back without looking at the cloud. */
  predicate Reported(j: Journal, r: Record) {
    || j.finalReceipt == Some(r)
    || (j.terminalReceipt == Some(r) && r.Receipt? && r.adminSqlPrincipalAbsent && r.ingressEmpty)
  }

  /** What any number of reconciliation runs since `from` keeps true, whatever writes are still in flight. */
  ghost predicate Reconciled(table: ControllerTable, world: CloudWorld, from: nat, base: seq<Write>)
    reads table, world
  {
    && table.Valid() && table.item.Some? && world.table == table && from <= |world.calls|
    && OnceEach(Since(world.calls, from), Phases(table.Log().transitions))
    && TruthfulSince(base, table.sent, world.sql, world.ingress)
  }

  lemma OnceEachKeeps(calls: seq<Call>, before: set<Phase>, after: set<Phase>)
    requires OnceEach(calls, before) && before <= after
    ensures OnceEach(calls, after)
  {
  }

  lemma GrowsKeepsPhases(j: Journal, k: Journal)
    requires Grows(j, k)
    ensures Phases(j.transitions) <= Phases(k.transitions)
  {
    forall t | t in j.transitions ensures t in k.transitions {}
  }

  /** `reconcileFreshClusterProviderAccess`: one reconciliation run, from its strongly consistent read on. */
  method Reconcile(table: ControllerTable, world: CloudWorld, ghost from: nat, ghost base: seq<Write>)
    returns (result: RecoveryEnding)
    requires Reconciled(table, world, from, base)
    modifies table, world
    ensures Reconciled(table, world, from, base) && Grows(old(table.Log()), table.Log())
    ensures old(world.calls) <= world.calls
    ensures OnlyRevokes(table.command, old(world.sql), world.sql, old(world.ingress), world.ingress)
    ensures result.AccessRevoked? ==>
              table.Log().terminalReceipt == Some(result.terminal) && RevokedButForLate(world.sql, world.ingress)
    ensures result.AlreadyClosed? ==> Reported(table.Log(), result.receipt)
    ensures table.command.clusterMode.CREATE_NEW? || !IsOpen(old(table.Log())) ==>
              table.Log() == old(table.Log()) && world.calls == old(world.calls)
    ensures table.calm && world.calm && table.command.clusterMode.ADOPT_VERIFIED_EXISTING? &&
              IsOpen(old(table.Log())) ==>
              (result.AccessRevoked? <==>
               Revocable(old(world.sql.users), old(world.ingress.entries),
                         Phases(old(table.Log().transitions)), table.command))
  {
    hide OnceEach, RevokedButForLate, Revocable;
    if table.command.clusterMode.CREATE_NEW? {
      return Rejected;
    }
    OkIsAcceptable(table.item.value, table.command);
    DecodeOk(table.item.value, table.command);
    var readable := Check(table.calm);
    var stored := ParseStored(table.item.value, table.command);
    if !readable.Done? || stored.None? {
      return if readable.Crashed? then Interrupted else Rejected;
    }
    var j := stored.value;
    EncodeInjective(j, table.Log());
    if j.finalReceipt.Some? {
      return AlreadyClosed(j.finalReceipt.value);
    }
    if j.terminalReceipt.Some? {
      return if Reported(j, j.terminalReceipt.value) then AlreadyClosed(j.terminalReceipt.value) else Rejected;
    }
    var authenticated := Check(table.calm);
    if !authenticated.Done? {
      return if authenticated.Crashed? then Interrupted else Rejected;
    }
    var secretRetained: bool := *;
    result := Resume(table, world, j, secretRetained, from, base);
  }

  /** The part of a run that finds the journal open. */
  method Resume(table: ControllerTable, world: CloudWorld, j: Journal, secretRetained: bool, ghost from: nat,
                ghost base: seq<Write>)
    returns (result: RecoveryEnding)
    requires Reconciled(table, world, from, base) && j == table.Log() && IsOpen(j)
    modifies table, world
    ensures Reconciled(table, world, from, base) && Grows(old(table.Log()), table.Log())
    ensures old(world.calls) <= world.calls
    ensures OnlyRevokes(table.command, old(world.sql), world.sql, old(world.ingress), world.ingress)
    ensures result.AccessRevoked? ==>
              table.Log().terminalReceipt == Some(result.terminal) && RevokedButForLate(world.sql, world.ingress)
    ensures !result.AlreadyClosed?
    ensures table.calm && world.calm ==>
              (result.AccessRevoked? <==>
               Revocable(old(world.sql.users), old(world.ingress.entries), Phases(j.transitions), table.command))
  {
    DecodeOk(table.item.value, table.command);
    var recorder := new Recorder(table, j);
    var run := new Reconciliation(table, world, recorder, from);
    hide OnceEach, Reconciliation.Inv, Revocable, FreshClusterRecorder.Recorder.Exact;
    result := run.Run(secretRetained);
    recorder.PhasesAreDurable();
    OnceEachKeeps(Since(world.calls, from), recorder.phases, Phases(table.Log().transitions));
  }

  /**
    Any number of reconciliation runs, one after the other, each dying or failing wherever it may, while writes of
    stopped runs keep landing and creates keep arriving in between. Together they delete the administrator at most once
    and the ingress entry at most once, each only behind its durable dispatch phase.
   */
  method ReconcileRepeatedly(table: ControllerTable, world: CloudWorld, runs: nat)
    requires table.Valid() && table.item.Some? && world.table == table
    modifies table, world
    ensures table.Valid() && table.item.Some? && Grows(old(table.Log()), table.Log()) && old(world.calls) <= world.calls
    ensures var calls := world.calls[|old(world.calls)|..];
      AdminDeletes(calls) <= 1 && IngressDeletes(calls) <= 1 && forall c :: c in calls ==> Authorised(c)
    ensures TruthfulSince(old(table.sent), table.sent, world.sql, world.ingress)
    ensures OnlyRevokes(table.command, old(world.sql), world.sql, old(world.ingress), world.ingress)
  {
    ghost var from, base := |world.calls|, table.sent;
    for i := 0 to runs
      invariant Reconciled(table, world, from, base) && Grows(old(table.Log()), table.Log())
      invariant old(world.calls) <= world.calls
      invariant OnlyRevokes(table.command, old(world.sql), world.sql, old(world.ingress), world.ingress)
    {
      Wait(table, world, from, base);
      var result := Reconcile(table, world, from, base);
    }
  }

  /** Between two runs writes land, and creates arrive. */
  method Wait(table: ControllerTable, world: CloudWorld, ghost from: nat, ghost base: seq<Write>)
    requires Reconciled(table, world, from, base)
    modifies table`item, world`sql, world`ingress
    ensures Reconciled(table, world, from, base) && Grows(old(table.Log()), table.Log())
    ensures OnlyRevokes(table.command, old(world.sql), world.sql, old(world.ingress), world.ingress)
  {
    ghost var before := table.Log();
    world.WaitForAdmin();
    world.WaitForEntries();
    ArrivalsAreTruthful(base, table.sent, old(world.sql), world.sql, old(world.ingress), world.ingress);
    hide OnceEach, RevokedButForLate, TruthfulSince;
    table.Settle();
    GrowsKeepsPhases(before, table.Log());
    OnceEachKeeps(Since(world.calls, from), Phases(before.transitions), Phases(table.Log().transitions));
  }

  /** What arrives, arrives late. */
  lemma ArrivalsAreTruthful(base: seq<Write>, sent: seq<Write>, sql: Accounts, sql': Accounts,
                            ingress: Allowlist, ingress': Allowlist)
    requires TruthfulSince(base, sent, sql, ingress)
    requires AdminMayArrive(sql, sql') && EntriesMayArrive(ingress, ingress')
    ensures TruthfulSince(base, sent, sql', ingress')
  {
  }

  // ----- Reconciliation deletes, read off the log -------------------------------------------------

  /** Deletes dispatched after the journal showed that a reconciliation announced them. */
  function RecoveryAdminDeletes(calls: seq<Call>): nat {
    if calls == [] then 0
    else RecoveryAdminDeletes(calls[..|calls| - 1]) +
         if IsRecoveryAdminDelete(calls[|calls| - 1]) then 1 else 0
  }

  function RecoveryIngressDeletes(calls: seq<Call>): nat {
    if calls == [] then 0
    else RecoveryIngressDeletes(calls[..|calls| - 1]) +
         if IsRecoveryIngressDelete(calls[|calls| - 1]) then 1 else 0
  }

  predicate IsRecoveryAdminDelete(c: Call) {
    c.action.DeleteSqlAdmin? && RECOVERY_ADMIN_DELETE_DISPATCHING in c.durable
  }

  predicate IsRecoveryIngressDelete(c: Call) {
    c.action.DeleteIngress? && RECOVERY_INGRESS_DELETE_DISPATCHING in c.durable
  }

  /** Calls made before any recovery phase was durable add nothing; of the later ones each counts at most itself. */
  lemma {:induction false} RecoveryDeletesAfter(before: seq<Call>, after: seq<Call>)
    requires forall c :: c in before ==> !IsRecoveryAdminDelete(c) && !IsRecoveryIngressDelete(c)
    ensures RecoveryAdminDeletes(before + after) <= AdminDeletes(after)
    ensures RecoveryIngressDeletes(before + after) <= IngressDeletes(after)
    decreases |before| + |after|
  {
    var all := before + after;
    if after != [] {
      var front := after[..|after| - 1];
      RecoveryDeletesAfter(before, front);
      assert all[..|all| - 1] == before + front && all[|all| - 1] == after[|after| - 1];
    } else if before != [] {
      var front := before[..|before| - 1];
      RecoveryDeletesAfter(front, []);
      assert all == before && all[..|all| - 1] == front + [] && before[|before| - 1] in before;
    }
  }
}
