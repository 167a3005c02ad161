/**
  The fresh-cluster provider controller: one attempt to obtain a cluster, open a temporary ingress, use a bootstrap
  administrator, and take both away again, with a cleanup that runs after any failure.
 */
module FreshClusterController {
  import opened Options
  import opened FreshClusterJournal
  import opened FreshClusterWrites
  import opened FreshClusterTable
  import opened FreshClusterRecorder

  /** The order in which a run records its phases. */
  function Rank(p: Phase): nat {
    match p
    case CLUSTER_CREATE_DISPATCHING => 0
    case CLUSTER_CREATE_ACKNOWLEDGEMENT_RECONCILED => 1
    case CLUSTER_ADOPTION_READBACK_STARTED => 2
    case CLUSTER_CREATE_OBSERVED => 3
    case CLUSTER_ADOPTION_OBSERVED => 4
    case RUNNER_EGRESS_OBSERVED => 5
    case INGRESS_PRESTATE_EMPTY => 6
    case INGRESS_CREATE_DISPATCHING => 7
    case INGRESS_CREATE_ACKNOWLEDGEMENT_RECONCILED => 8
    case INGRESS_CREATE_OBSERVED => 9
    case RUNNER_EGRESS_REOBSERVED_AFTER_INGRESS => 10
    case ADMIN_SECRET_DISPATCHING => 11
    case ADMIN_SECRET_ACKNOWLEDGEMENT_RECONCILED => 12
    case ADMIN_SECRET_SEALED => 13
    case LOCAL_ADMIN_CREDENTIAL_DISCARDING => 14
    case LOCAL_ADMIN_CREDENTIAL_DISCARDED => 15
    case ADMIN_USER_PRESTATE_ABSENT => 16
    case ADOPTED_ADMIN_USER_PRESTATE_PRESENT => 17
    case ADMIN_CREATE_DISPATCHING => 18
    case ADMIN_CREATE_ACKNOWLEDGEMENT_RECONCILED => 19
    case ADMIN_CREATE_OBSERVED => 20
    case ADOPTED_ADMIN_USER_OBSERVED => 21
    case ADMIN_AUTHENTICATED => 22
    case RUNNER_EGRESS_REOBSERVED_BEFORE_BOOTSTRAP => 23
    case BOOTSTRAP_DISPATCHING => 24
    case BOOTSTRAP_ACCEPTED => 25
    case RECOVERY_SOURCE_AND_PREPARATION_DISPATCHING => 26
    case RECOVERY_SOURCE_AND_PREPARATION_ACCEPTED => 27
    case RECOVERY_PUBLICATION_APPEND_DISPATCHING => 28
    case RECOVERY_PUBLICATION_APPEND_ACCEPTED => 29
    case RECOVERY_PUBLICATION_REPLAY_DISPATCHING => 30
    case RECOVERY_PUBLICATION_REPLAY_ACCEPTED => 31
    case RECOVERY_MANAGED_MCP_REQUEST_PLANNED => 32
    case RECOVERY_MANAGED_MCP_QUERY_ACCEPTED => 33
    case POST_BOOTSTRAP_SQL_USER_INVENTORY_ACCEPTED => 34
    case FAILURE_ADMIN_PRESTATE_DISCOVERED => 35
    case ADMIN_DELETE_DISPATCHING => 36
    case ADMIN_DELETE_ACKNOWLEDGEMENT_RECONCILED => 37
    case ADMIN_DELETE_ABSENT => 38
    case FINAL_PRINCIPAL_CENSUS_ACCEPTED => 39
    case INGRESS_DELETE_DISPATCHING => 40
    case INGRESS_DELETE_ACKNOWLEDGEMENT_RECONCILED => 41
    case INGRESS_DELETE_ABSENT => 42
    case _ => 43
  }

  datatype Ending =
    | Finalized
    | FailedAndTerminalized
    | ClosingUnknown
    | CleanupPending
    | Interrupted

  ghost predicate NoReceipt(writes: seq<Write>) {
    forall w :: w in writes ==> w.Append?
  }

  /** Nothing was sent but transitions of phases this controller names. */
  ghost predicate OwnPhases(writes: seq<Write>) {
    forall w :: w in writes ==> w.Append? && w.transition.Transition? && Rank(w.transition.phase) < 43
  }

  /** Written ahead, and before any reconciliation announced a delete of its own. */
  ghost predicate OwnCalls(calls: seq<Call>) {
    WrittenAhead(calls) && forall c :: c in calls ==> forall p :: p in c.durable ==> Rank(p) < 43
  }

  /** The log only grew, by at most so many deletes of the administrator and of an ingress entry. */
  ghost predicate FewDeletes(before: seq<Call>, after: seq<Call>, admin: nat, ingress: nat) {
    && before <= after
    && AdminDeletes(after) <= AdminDeletes(before) + admin
    && IngressDeletes(after) <= IngressDeletes(before) + ingress
  }

  class FreshClusterRun {
    const table: ControllerTable
    const world: CloudWorld
    const recorder: Recorder
    /** The cloud as the run found it; only the specification looks at these. */
    ghost const users0: set<User>
    ghost const allowlist0: set<Entry>

    var clusterKnown: bool
    var ingressEntry: Option<Entry>
    var ingressPossible: bool
    var ingressAbsent: bool
    var adminPossible: bool
    var adminAbsent: bool
    var sqlBaseline: Option<set<User>>

    /** What was still pending when absence was last seen, and what was seen to be there; only for the specification. */
    ghost var adminThen: bool
    ghost var entriesThen: set<Entry>
    ghost var adminCreated: bool
    ghost var adminSeen: bool
    ghost var entrySeen: bool

    /** The state right after an accepted reservation. */
    constructor (t: ControllerTable, w: CloudWorld, r: Recorder)
      requires r.table == t && w.table == t && r.Synced() && OwnPhases(t.sent) && OwnCalls(w.calls)
      requires t.sent == [] && NothingPending(w.sql, w.ingress) && NothingLate(w.sql, w.ingress)
      ensures table == t && world == w && recorder == r && users0 == w.sql.users && allowlist0 == w.ingress.entries
      ensures Inv() && Untouched()
    {
      table, world, recorder := t, w, r;
      users0, allowlist0 := w.sql.users, w.ingress.entries;
      clusterKnown, ingressEntry, sqlBaseline := false, None, None;
      ingressPossible, ingressAbsent := false, true;
      adminPossible, adminAbsent := false, t.command.clusterMode.CREATE_NEW?;
      adminThen, entriesThen, adminCreated, adminSeen, entrySeen := false, {}, false, false, false;
    }

    /** No step of the run has touched the administrator yet. */
    ghost predicate AdminUntouched()
      reads this`adminAbsent, this`adminPossible, this`sqlBaseline, this`adminCreated
    {
      !adminPossible && sqlBaseline.None? && !adminCreated && adminAbsent == table.command.clusterMode.CREATE_NEW?
    }

    ghost predicate Untouched()
      reads this`adminAbsent, this`adminPossible, this`sqlBaseline, this`adminCreated, this`ingressAbsent,
            this`ingressPossible
    {
      AdminUntouched() && ingressAbsent && !ingressPossible
    }

    predicate Calm() {
      table.calm && world.calm
    }

    /** Nothing went wrong with the journal so far, and what is recorded ranks below n. */
    ghost predicate Smooth(n: nat)
      reads recorder, recorder.table
    {
      recorder.Exact() && forall p :: p in recorder.phases ==> Rank(p) < n
    }

    lemma Rise(n: nat, m: nat)
      requires n <= m
      ensures Smooth(n) ==> Smooth(m)
    {
    }

    /** What holds between any two calls of any run. */
    ghost predicate Inv()
      reads this, world, recorder, table
    {
      Wired() && Ready() && SafeIngress() && SafeAdmin() && OwnCalls(world.calls) && Announced()
    }

    /** Controller, recorder and cloud are about one table. */
    ghost predicate Wired() {
      recorder.table == table && world.table == table
    }

    ghost predicate Ready()
      reads recorder, table
    {
      recorder.table == table && recorder.Synced() && OwnPhases(table.sent)
    }

    /** What is pending was announced, and what was recorded as observed was observed. */
    ghost predicate Announced()
      reads this`adminCreated, this`ingressPossible, this`adminSeen, this`entrySeen, table
    {
      AnnouncedIn(table.sent, table.Durable())
    }

    ghost predicate AnnouncedIn(sent: seq<Write>, durable: set<Phase>)
      reads this`adminCreated, this`ingressPossible, this`adminSeen, this`entrySeen
    {
      && (adminCreated ==> ADMIN_CREATE_DISPATCHING in durable)
      && (ingressPossible ==> INGRESS_CREATE_DISPATCHING in durable)
      && (forall w :: w in sent && AppendsPhase(w, ADMIN_CREATE_OBSERVED) ==> adminSeen)
      && (forall w :: w in sent && AppendsPhase(w, INGRESS_CREATE_OBSERVED) ==> entrySeen)
    }

    /** What the ingress flags say about the allowlist: it holds what has arrived since absence was last seen. */
    ghost predicate SafeIngress()
      reads this`ingressAbsent, this`ingressPossible, this`ingressEntry, this`clusterKnown, this`entriesThen,
            this`entrySeen, world`ingress
    {
      && (Calm() ==> world.ingress.late == {})
      && (!ingressPossible ==> ingressAbsent && !entrySeen && world.ingress == Allowlist(allowlist0, {}, {}))
      && (ingressPossible ==>
            && ingressEntry.Some? && clusterKnown && allowlist0 == {}
            && world.ingress.entries + world.ingress.pending <= {ingressEntry.value}
            && world.ingress.entries !! world.ingress.pending)
      && (ingressPossible && ingressAbsent ==>
            && world.ingress.pending <= entriesThen && world.ingress.entries == entriesThen - world.ingress.pending
            && world.ingress.entries <= world.ingress.late)
      && (entrySeen ==> world.ingress.pending == {} && (ingressAbsent ==> entriesThen == {}))
    }

    /** What the administrator flags say about the SQL users. */
    ghost predicate SafeAdmin()
      reads this`adminAbsent, this`adminPossible, this`sqlBaseline, this`clusterKnown, this`adminThen,
            this`adminCreated, this`adminSeen, world`sql
    {
      && (Calm() ==> !world.sql.late)
      && (adminCreated ==> table.command.clusterMode.CREATE_NEW?)
      && (!adminCreated ==> !world.sql.pending && !world.sql.late && !adminSeen && !adminThen)
      && (adminSeen ==> !world.sql.pending && !adminThen)
      && (world.sql.pending ==> BootstrapAdmin !in world.sql.users)
      && (table.command.clusterMode.CREATE_NEW? ==>
            && (adminAbsent ==>
                  && (BootstrapAdmin in world.sql.users <==>
                      BootstrapAdmin in users0 || (adminThen && !world.sql.pending))
                  && (world.sql.pending ==> adminThen)
                  && (adminThen && !world.sql.pending ==> world.sql.late))
            && (!adminAbsent || adminCreated ==> adminPossible && clusterKnown && sqlBaseline.Some?)
            && (sqlBaseline.Some? ==> BootstrapAdmin !in users0))
      && (table.command.clusterMode.ADOPT_VERIFIED_EXISTING? && adminAbsent ==> BootstrapAdmin !in world.sql.users)
    }

    /** What closing receipts claim, and when that is true. */
    ghost predicate Cleaned()
      reads world
    {
      && allowlist0 <= world.ingress.entries <= allowlist0 + world.ingress.late
      && (table.command.clusterMode.CREATE_NEW? && BootstrapAdmin in users0 ==> BootstrapAdmin in world.sql.users)
      && (BootstrapAdmin in world.sql.users ==>
            (table.command.clusterMode.CREATE_NEW? && BootstrapAdmin in users0) || world.sql.late)
    }

    lemma RecordedIsDurable()
      requires Inv()
      ensures recorder.phases <= table.Durable()
    {
      recorder.PhasesAreDurable();
    }

    lemma OneMorePhase(before: seq<Write>, after: seq<Write>, phase: Phase)
      requires OwnPhases(before) && Rank(phase) < 43
      requires |after| == |before| + 1 && before <= after && AppendsPhase(after[|before|], phase)
      ensures OwnPhases(after)
    {
      forall w | w in after ensures w.Append? && w.transition.Transition? && Rank(w.transition.phase) < 43 {
        var i :| 0 <= i < |after| && after[i] == w;
        assert i < |before| ==> w == before[i] && before[i] in before;
      }
    }

    lemma DurableIsOwn()
      requires Inv()
      ensures forall p :: p in table.Durable() ==> Rank(p) < 43
    {
      forall t | t in table.Log().transitions ensures Rank(PhaseOf(t)) < 43 {
        assert Append(table.command, t) in table.sent;
      }
    }

    // ----- Calls ------------------------------------------------------------------------------

    /** The `record` closure: a phase is never recorded twice. */
    method Record(phase: Phase, mutationDispatched: bool) returns (o: Outcome)
      requires Inv() && Known(phase) && Rank(phase) < 43 && MayRecord(phase)
      modifies recorder`sequence, recorder`previous, recorder`phases, table
      ensures Inv() && (o.Done? ==> phase in table.Durable())
      ensures Calm() && old(Smooth(Rank(phase))) ==> o.Done? && forall n: nat :: n > Rank(phase) ==> Smooth(n)
    {
      hide SafeAdmin, SafeIngress, OwnCalls, OwnPhases, Rank, FreshClusterRecorder.Recorder.Exact, MayRecord;
      hide FreshClusterTable.ControllerTable.Durable, FreshClusterRecorder.Recorder.Synced, AnnouncedIn, AppendsPhase;
      hide Known, Grows, Phases, FreshClusterTable.ControllerTable.Valid;
      if phase in recorder.phases {
        return Threw;
      }
      :- Check(Calm());
      var payload: nat := *;
      ghost var before, durable := table.sent, table.Durable();
      HasLog();
      ghost var log := table.Log();
      o := recorder.Append(phase, payload, mutationDispatched);
      HasLog();
      DurableGrows(log, durable);
      OneMorePhase(before, table.sent, phase);
      StillAnnounced(before, durable, phase);
      RecordedIsDurable();
    }

    lemma HasLog()
      requires recorder.table == table && recorder.Synced()
      ensures table.item.Some? && table.Durable() == Phases(table.Log().transitions)
    {
    }

    lemma DurableGrows(before: Journal, durable: set<Phase>)
      requires table.item.Some? && Grows(before, table.Log()) && durable == Phases(before.transitions)
      ensures durable <= table.Durable()
    {
      forall t | t in before.transitions ensures t in table.Log().transitions {}
    }

    /** Creation is recorded as observed only once it was. */
    ghost predicate MayRecord(phase: Phase)
      reads this`adminSeen, this`entrySeen
    {
      (phase == ADMIN_CREATE_OBSERVED ==> adminSeen) && (phase == INGRESS_CREATE_OBSERVED ==> entrySeen)
    }

    lemma StillAnnounced(before: seq<Write>, durable: set<Phase>, phase: Phase)
      requires |table.sent| == |before| + 1 && before <= table.sent && AppendsPhase(table.sent[|before|], phase)
      requires durable <= table.Durable() && MayRecord(phase)
      requires AnnouncedIn(before, durable)
      ensures Announced()
    {
      forall w | w in table.sent
        ensures (AppendsPhase(w, ADMIN_CREATE_OBSERVED) ==> adminSeen)
        ensures (AppendsPhase(w, INGRESS_CREATE_OBSERVED) ==> entrySeen)
      {
        var i :| 0 <= i < |table.sent| && table.sent[i] == w;
        assert i < |before| ==> w == before[i] && before[i] in before;
      }
    }

    lemma OneMoreCall(action: Action, p: Phase)
      requires Inv() && p in DispatchPhases(action) && p in table.Durable()
      ensures var c := Call(action, world.table.Durable());
        && OwnCalls(world.calls + [c])
        && AdminDeletes(world.calls + [c]) == AdminDeletes(world.calls) + (if action.DeleteSqlAdmin? then 1 else 0)
        && IngressDeletes(world.calls + [c]) == IngressDeletes(world.calls) + (if action.DeleteIngress? then 1 else 0)
    {
      hide SafeAdmin, SafeIngress, Ready, Rank, AdminDeletes, IngressDeletes, FreshClusterTable.ControllerTable.Durable;
      var c := Call(action, world.table.Durable());
      DurableIsOwn();
      CountOneMore(world.calls, c);
    }

    /** A mutation of other resources, behind its own dispatch phase. */
    method Perform(action: Action, phase: Phase) returns (acknowledged: bool)
      requires Inv() && phase in DispatchPhases(action) && phase in table.Durable()
      requires !action.DeleteSqlAdmin? && !action.DeleteIngress?
      modifies world`calls
      ensures Inv() && (Calm() ==> acknowledged)
      ensures FewDeletes(old(world.calls), world.calls, 0, 0)
    {
      hide Ready, OwnCalls, Announced, SafeAdmin, SafeIngress, AdminDeletes, IngressDeletes;
      hide FreshClusterTable.ControllerTable.Durable, DispatchPhases;
      OneMoreCall(action, phase);
      acknowledged := world.Perform(action);
    }

    method AddIngress() returns (acknowledged: bool)
      requires Inv() && !ingressAbsent && INGRESS_CREATE_DISPATCHING in table.Durable() && !entrySeen
      requires world.ingress.entries == {} && world.ingress.pending == {}
      modifies world`calls, world`ingress
      ensures Inv()
      ensures Calm() && world.prompt ==> acknowledged && world.ingress.entries == {ingressEntry.value}
      ensures Calm() && !world.prompt ==>
                !acknowledged && world.ingress.entries == {} && world.ingress.pending == {ingressEntry.value}
      ensures FewDeletes(old(world.calls), world.calls, 0, 0)
    {
      hide Ready, OwnCalls, Announced, FreshClusterTable.ControllerTable.Durable;
      OneMoreCall(Action.AddIngress(ingressEntry.value), INGRESS_CREATE_DISPATCHING);
      acknowledged := world.AddTemporaryIngress(ingressEntry.value);
    }

    method DeleteIngress() returns (acknowledged: bool)
      requires Inv() && !ingressAbsent && INGRESS_DELETE_DISPATCHING in table.Durable()
      modifies world`calls, world`ingress
      ensures Inv()
      ensures Calm() ==> acknowledged && world.ingress == old(world.ingress.(entries := {}))
      ensures FewDeletes(old(world.calls), world.calls, 0, 1)
    {
      hide Ready, OwnCalls, Announced, FreshClusterTable.ControllerTable.Durable;
      OneMoreCall(Action.DeleteIngress(ingressEntry.value), INGRESS_DELETE_DISPATCHING);
      acknowledged := world.DeleteTemporaryIngress(ingressEntry.value);
    }

    method CreateAdmin() returns (acknowledged: bool)
      requires Inv() && !adminAbsent && adminCreated && ADMIN_CREATE_DISPATCHING in table.Durable() && !adminSeen
      requires BootstrapAdmin !in world.sql.users && !world.sql.pending
      modifies world`calls, world`sql
      ensures Inv()
      ensures Calm() && world.prompt ==> acknowledged && world.sql.users == old(world.sql.users) + {BootstrapAdmin}
      ensures FewDeletes(old(world.calls), world.calls, 0, 0)
    {
      hide Ready, OwnCalls, Announced, FreshClusterTable.ControllerTable.Durable;
      OneMoreCall(CreateSqlAdmin, ADMIN_CREATE_DISPATCHING);
      acknowledged := world.CreateAdmin();
    }

    method DeleteAdmin() returns (acknowledged: bool)
      requires Inv() && !adminAbsent && ADMIN_DELETE_DISPATCHING in table.Durable()
      modifies world`calls, world`sql
      ensures Inv() && (Calm() ==> acknowledged && world.sql.users == old(world.sql.users) - {BootstrapAdmin})
      ensures FewDeletes(old(world.calls), world.calls, 1, 0)
    {
      hide Ready, OwnCalls, Announced, FreshClusterTable.ControllerTable.Durable;
      OneMoreCall(DeleteSqlAdmin, ADMIN_DELETE_DISPATCHING);
      acknowledged := world.DeleteAdmin();
    }

    method Bootstrap() returns (acknowledged: bool)
      requires Inv() && !adminAbsent && BOOTSTRAP_DISPATCHING in table.Durable()
      modifies world`calls, world`sql
      ensures Inv() && (Calm() ==> acknowledged && world.sql.users == old(world.sql.users) + RUNTIME_USERS)
      ensures FewDeletes(old(world.calls), world.calls, 0, 0)
    {
      hide Ready, OwnCalls, Announced, FreshClusterTable.ControllerTable.Durable;
      OneMoreCall(RunBootstrap, BOOTSTRAP_DISPATCHING);
      acknowledged := world.Bootstrap();
    }

    /** `validateTemporaryAllowlistReadback` of a complete readback. */
    method RequireAllowlist(expected: set<Entry>) returns (o: Outcome)
      requires Inv()
      modifies world`ingress
      ensures Inv() && (o.Done? ==> world.ingress.entries == expected)
      ensures Calm() ==> !o.Crashed? && world.ingress == old(world.ingress)
      ensures Calm() ==> (o.Done? <==> world.ingress.entries == expected)
    {
      hide Ready, OwnCalls, SafeAdmin, Announced;
      var listed, entries := world.ListAllowlist();
      :- Check(Calm());
      return if listed && entries == expected then Done else Threw;
    }

    /** A complete inventory of the SQL users, or an error. */
    method ListUsers() returns (listed: bool, names: set<User>)
      requires Inv()
      modifies world`sql
      ensures Inv() && (listed ==> names == world.sql.users)
      ensures Calm() ==> listed && world.sql == old(world.sql)
    {
      hide Ready, OwnCalls, SafeIngress, Announced;
      listed, names := world.ListSqlUsers();
    }

    /** `validateSqlUserInventory` of a complete readback, compared with an exact set of names. */
    method RequireUsers(expected: set<User>) returns (o: Outcome)
      requires Inv()
      modifies world`sql
      ensures Inv() && (o.Done? ==> world.sql.users == expected)
      ensures Calm() ==> !o.Crashed? && world.sql == old(world.sql)
      ensures Calm() ==> (o.Done? <==> world.sql.users == expected)
    {
      hide Inv;
      var listed, names := ListUsers();
      :- Check(Calm());
      return if listed && names == expected then Done else Threw;
    }

    /** The weaker test of the cleanup path. */
    method RequireNoAdmin() returns (o: Outcome)
      requires Inv()
      modifies world`sql
      ensures Inv() && (o.Done? ==> BootstrapAdmin !in world.sql.users)
      ensures Calm() ==> !o.Crashed? && world.sql == old(world.sql)
      ensures Calm() ==> (o.Done? <==> BootstrapAdmin !in world.sql.users)
    {
      hide Inv;
      var listed, names := ListUsers();
      :- Check(Calm());
      return if listed && BootstrapAdmin !in names then Done else Threw;
    }

    // ----- Flag changes -----------------------------------------------------------------------

    method KnowCluster()
      requires Inv()
      modifies this`clusterKnown
      ensures Inv() && clusterKnown
    {
      hide Ready, OwnCalls, Announced;
      clusterKnown := true;
    }

    /** From the dispatch on, absence is unknown until a readback proves it. */
    method DispatchIngress()
      requires Inv() && !ingressPossible && world.ingress.entries == {} && ingressEntry.Some? && clusterKnown
      requires INGRESS_CREATE_DISPATCHING in table.Durable()
      modifies this`ingressPossible, this`ingressAbsent
      ensures Inv() && !ingressAbsent && ingressPossible && !entrySeen
      ensures world.ingress.pending == {}
    {
      hide Ready, OwnCalls, FreshClusterTable.ControllerTable.Durable;
      ingressPossible := true;
      ingressAbsent := false;
    }

    /** Once seen, the one entry that was sent cannot arrive again. */
    method SeeIngress()
      requires Inv() && !ingressAbsent && ingressEntry.Some? && world.ingress.entries == {ingressEntry.value}
      modifies this`entrySeen
      ensures Inv() && entrySeen
    {
      hide Ready, OwnCalls;
      entrySeen := true;
    }

    method SeeIngressGone()
      requires Inv() && world.ingress.entries == {}
      modifies this`ingressAbsent, this`entriesThen
      ensures Inv() && ingressAbsent
    {
      hide Ready, OwnCalls, Announced;
      ingressAbsent := true;
      entriesThen := world.ingress.pending;
    }

    method SeeAdminGone()
      requires Inv() && BootstrapAdmin !in world.sql.users && !adminAbsent
      modifies this`adminAbsent, this`adminThen
      ensures Inv() && adminAbsent
    {
      hide Ready, OwnCalls, Announced;
      adminAbsent := true;
      adminThen := world.sql.pending;
    }

    /** The users other than the administrator, as they were found. */
    method TakeBaseline(names: set<User>)
      requires Inv() && clusterKnown && AdminUntouched() && names == world.sql.users
      requires BootstrapAdmin in names <==> table.command.clusterMode.ADOPT_VERIFIED_EXISTING?
      modifies this`sqlBaseline
      ensures Inv() && sqlBaseline == Some(names - {BootstrapAdmin})
    {
      hide Ready, OwnCalls, SafeIngress, Announced;
      sqlBaseline := Some(names - {BootstrapAdmin});
    }

    method TakePossible()
      requires Inv()
      modifies this`adminPossible
      ensures Inv() && adminPossible
    {
      hide Ready, OwnCalls, SafeIngress, Announced;
      adminPossible := true;
    }

    /** What a cleanup finds of an administrator it never looked for. */
    method TakeDiscovery(discovered: set<User>)
      requires Inv() && !adminPossible && !adminAbsent && clusterKnown && discovered == world.sql.users
      modifies this`adminPossible, this`adminAbsent, this`sqlBaseline
      ensures Inv() && (adminAbsent || (adminPossible && sqlBaseline.Some?))
    {
      hide Ready, OwnCalls, SafeIngress, Announced;
      if BootstrapAdmin in discovered {
        adminPossible := true;
        sqlBaseline := Some(discovered - {BootstrapAdmin});
      } else {
        adminAbsent := true;
      }
    }

    method DispatchAdmin()
      requires Inv() && adminPossible && clusterKnown && sqlBaseline.Some? && table.command.clusterMode.CREATE_NEW?
      requires !adminCreated && BootstrapAdmin !in world.sql.users && ADMIN_CREATE_DISPATCHING in table.Durable()
      modifies this`adminAbsent, this`adminCreated
      ensures Inv() && !adminAbsent && adminCreated && !adminSeen && !world.sql.pending
    {
      hide Ready, OwnCalls, FreshClusterTable.ControllerTable.Durable;
      adminAbsent := false;
      adminCreated := true;
    }

    method SeeAdmin()
      requires Inv() && adminPossible && clusterKnown && sqlBaseline.Some? && BootstrapAdmin in world.sql.users
      requires !adminAbsent || table.command.clusterMode.ADOPT_VERIFIED_EXISTING?
      modifies this`adminAbsent, this`adminSeen, this`adminThen
      ensures Inv() && !adminAbsent && (adminCreated ==> adminSeen)
    {
      hide Ready, OwnCalls;
      adminAbsent := false;
      adminSeen := adminCreated;
      adminThen := false;
    }

    // ----- The success path -------------------------------------------------------------------

    method ObtainCluster() returns (o: Outcome)
      requires Inv()
      modifies this`clusterKnown, world`calls, recorder`sequence, recorder`previous, recorder`phases, table
      ensures Inv() && (o.Done? ==> clusterKnown)
      ensures Calm() && old(Smooth(0)) ==> o.Done? && Smooth(5)
      ensures FewDeletes(old(world.calls), world.calls, 0, 0)
    {
      hide Inv, AdminDeletes, IngressDeletes, FreshClusterTable.ControllerTable.Durable, Smooth;
      :- Check(Calm());
      if table.command.clusterMode.CREATE_NEW? {
        :- Record(CLUSTER_CREATE_DISPATCHING, true);
        var created := Perform(CreateCluster, CLUSTER_CREATE_DISPATCHING);
        if !created {
          :- Check(Calm());
          :- Record(CLUSTER_CREATE_ACKNOWLEDGEMENT_RECONCILED, false);
        }
        KnowCluster();
      } else {
        KnowCluster();
        Rise(0, 2);
        :- Record(CLUSTER_ADOPTION_READBACK_STARTED, false);
      }
      :- Check(Calm());
      o := Record(
        if table.command.clusterMode.CREATE_NEW? then CLUSTER_CREATE_OBSERVED else CLUSTER_ADOPTION_OBSERVED, false);
    }

    /** The allowlist must be empty before anything is added to it. */
    method ChooseIngress(entry: Entry) returns (o: Outcome)
      requires Inv() && ingressAbsent && !ingressPossible
      modifies world`ingress
      modifies this`ingressEntry, this`ingressAbsent, this`entriesThen
      modifies recorder`sequence, recorder`previous, recorder`phases, table
      ensures Inv() && ingressAbsent
      ensures o.Done? ==> ingressEntry == Some(entry) && world.ingress.entries == {}
      ensures Calm() ==> world.ingress == old(world.ingress)
      ensures Calm() && old(Smooth(5)) ==> Smooth(7) && !o.Crashed? && (o.Done? <==> world.ingress.entries == {})
    {
      hide Ready, FreshClusterTable.ControllerTable.Durable, OwnCalls, SafeAdmin, Smooth, Announced;
      :- Check(Calm());
      :- Record(RUNNER_EGRESS_OBSERVED, false);
      ingressEntry := Some(entry);
      :- RequireAllowlist({});
      SeeIngressGone();
      o := Record(INGRESS_PRESTATE_EMPTY, false);
    }

    method DispatchIngressCreate() returns (o: Outcome)
      requires Inv() && clusterKnown && !ingressPossible && world.ingress.entries == {} && ingressEntry.Some?
      modifies this`ingressPossible, this`ingressAbsent
      modifies world`calls, world`ingress, recorder`sequence, recorder`previous, recorder`phases, table
      ensures Inv() && (o.Done? ==> !ingressAbsent)
      ensures Calm() && old(Smooth(7)) && world.prompt ==>
                o.Done? && Smooth(9) && world.ingress.entries == {ingressEntry.value}
      ensures Calm() && old(Smooth(7)) && !world.prompt ==>
                o.Threw? && Smooth(9) && world.ingress.pending == {ingressEntry.value}
      ensures FewDeletes(old(world.calls), world.calls, 0, 0)
    {
      hide Inv, AdminDeletes, IngressDeletes, FreshClusterTable.ControllerTable.Durable, Smooth;
      :- Record(INGRESS_CREATE_DISPATCHING, true);
      DispatchIngress();
      var acknowledged := AddIngress();
      Rise(8, 9);
      if !acknowledged {
        :- RequireAllowlist({ingressEntry.value});
        :- Record(INGRESS_CREATE_ACKNOWLEDGEMENT_RECONCILED, false);
      }
      return Done;
    }

    method OpenIngress() returns (o: Outcome)
      requires Inv() && clusterKnown && !ingressPossible && world.ingress.entries == {} && ingressEntry.Some?
      modifies this`ingressPossible, this`ingressAbsent, this`entrySeen
      modifies world`calls, world`ingress, recorder`sequence, recorder`previous, recorder`phases, table
      ensures Inv() && (o.Done? ==> !ingressAbsent && entrySeen)
      ensures Calm() && old(Smooth(7)) && world.prompt ==> o.Done? && Smooth(11)
      ensures Calm() && old(Smooth(7)) && !world.prompt ==>
                o.Threw? && Smooth(11) && world.ingress.pending == {ingressEntry.value}
      ensures FewDeletes(old(world.calls), world.calls, 0, 0)
    {
      hide Inv, AdminDeletes, IngressDeletes, FreshClusterTable.ControllerTable.Durable, Smooth;
      var dispatched := DispatchIngressCreate();
      Rise(9, 11);
      if !dispatched.Done? {
        return dispatched;
      }
      :- RequireAllowlist({ingressEntry.value});
      SeeIngress();
      :- Record(INGRESS_CREATE_OBSERVED, false);
      :- Check(Calm());
      o := Record(RUNNER_EGRESS_REOBSERVED_AFTER_INGRESS, false);
    }

    method SealAdminCredential() returns (o: Outcome)
      requires Inv()
      modifies world`calls, recorder`sequence, recorder`previous, recorder`phases, table
      ensures Inv()
      ensures Calm() && old(Smooth(11)) ==> o.Done? && Smooth(16)
      ensures FewDeletes(old(world.calls), world.calls, 0, 0)
    {
      hide Inv, AdminDeletes, IngressDeletes, FreshClusterTable.ControllerTable.Durable, Smooth;
      :- Check(Calm());
      :- Record(ADMIN_SECRET_DISPATCHING, true);
      var sealedSecret := Perform(SealAdminSecret, ADMIN_SECRET_DISPATCHING);
      if !sealedSecret {
        :- Check(Calm());
        :- Record(ADMIN_SECRET_ACKNOWLEDGEMENT_RECONCILED, false);
      }
      :- Record(ADMIN_SECRET_SEALED, false);
      o := DiscardLocalCredential();
    }

    method DiscardLocalCredential() returns (o: Outcome)
      requires Inv()
      modifies recorder`sequence, recorder`previous, recorder`phases, table
      ensures Inv()
      ensures Calm() && old(Smooth(14)) ==> o.Done? && Smooth(16)
    {
      hide Inv, AdminDeletes, IngressDeletes, FreshClusterTable.ControllerTable.Durable, Smooth;
      :- Record(LOCAL_ADMIN_CREDENTIAL_DISCARDING, false);
      :- Check(Calm());
      o := Record(LOCAL_ADMIN_CREDENTIAL_DISCARDED, false);
    }

    /** The SQL users a run must find. */
    function Expected(): set<User> {
      {Root} + if table.command.clusterMode.ADOPT_VERIFIED_EXISTING? then {BootstrapAdmin} else {}
    }

    /** The users must be the baseline, with the administrator present exactly when one is adopted. */
    method ObserveBaseline() returns (o: Outcome)
      requires Inv() && clusterKnown && AdminUntouched()
      modifies world`sql
      modifies this`adminPossible, this`sqlBaseline, recorder`sequence, recorder`previous, recorder`phases, table
      ensures Inv()
      ensures o.Done? ==> adminPossible && sqlBaseline == Some({Root})
      ensures o.Done? ==> world.sql.users == Expected()
      ensures o.Threw? ==> !adminPossible
      ensures Calm() ==> world.sql == old(world.sql)
      ensures Calm() && old(Smooth(16)) ==> Smooth(18) && !o.Crashed? && (o.Done? <==> world.sql.users == Expected())
    {
      hide Inv, Smooth;
      Rise(16, 18);
      var listed, names := ListUsers();
      if !listed {
        return Threw;
      }
      var initiallyPresent := BootstrapAdmin in names;
      if initiallyPresent != table.command.clusterMode.ADOPT_VERIFIED_EXISTING? {
        return Threw;
      }
      TakeBaseline(names);
      Rise(16, 17);
      if sqlBaseline.value != {Root} {
        return Threw;
      }
      o := Record(if initiallyPresent then ADOPTED_ADMIN_USER_PRESTATE_PRESENT else ADMIN_USER_PRESTATE_ABSENT, false);
      if o.Done? {
        TakePossible();
      }
    }

    method CreateMissingAdmin() returns (o: Outcome)
      requires Inv() && clusterKnown && adminPossible && sqlBaseline == Some({Root})
      requires table.command.clusterMode.CREATE_NEW? && !adminCreated && BootstrapAdmin !in world.sql.users
      modifies this`adminAbsent, this`adminCreated
      modifies world`calls, world`sql, recorder`sequence, recorder`previous, recorder`phases, table
      ensures Inv() && (o.Done? ==> !adminAbsent && adminCreated)
      ensures Calm() && old(Smooth(18)) && world.prompt && old(world.sql.users) == {Root} ==>
                o.Done? && Smooth(20) && world.sql.users == {Root, BootstrapAdmin}
      ensures FewDeletes(old(world.calls), world.calls, 0, 0)
    {
      hide Inv, AdminDeletes, IngressDeletes, FreshClusterTable.ControllerTable.Durable, Smooth;
      :- Record(ADMIN_CREATE_DISPATCHING, true);
      DispatchAdmin();
      var acknowledged := CreateAdmin();
      if !acknowledged {
        :- RequireUsers({Root, BootstrapAdmin});
        :- Record(ADMIN_CREATE_ACKNOWLEDGEMENT_RECONCILED, false);
      }
      return Done;
    }

    method ObserveAdmin() returns (o: Outcome)
      requires Inv() && clusterKnown && adminPossible && sqlBaseline == Some({Root})
      requires !adminCreated && world.sql.users == Expected()
      modifies this`adminAbsent, this`adminCreated, this`adminSeen, this`adminThen
      modifies world`calls, world`sql, recorder`sequence, recorder`previous, recorder`phases, table
      ensures Inv() && (o.Done? ==> !adminAbsent && (adminCreated ==> adminSeen))
      ensures Calm() && old(Smooth(18)) && world.prompt ==>
                o.Done? && Smooth(22) && world.sql.users == {Root, BootstrapAdmin}
      ensures FewDeletes(old(world.calls), world.calls, 0, 0)
    {
      hide Inv, AdminDeletes, IngressDeletes, FreshClusterTable.ControllerTable.Durable, Smooth;
      Rise(18, 21);
      if table.command.clusterMode.CREATE_NEW? {
        assert Expected() == {Root};
        :- CreateMissingAdmin();
      }
      :- RequireUsers({Root, BootstrapAdmin});
      SeeAdmin();
      CreatedIsCreatedNew();
      o := Record(
        if table.command.clusterMode.CREATE_NEW? then ADMIN_CREATE_OBSERVED else ADOPTED_ADMIN_USER_OBSERVED, false);
    }

    lemma CreatedIsCreatedNew()
      requires Inv()
      ensures adminCreated ==> table.command.clusterMode.CREATE_NEW?
    {
    }

    method EnsureAdmin() returns (o: Outcome)
      requires Inv() && clusterKnown && adminPossible && sqlBaseline == Some({Root})
      requires !adminCreated && world.sql.users == Expected()
      modifies this`adminAbsent, this`adminCreated, this`adminSeen, this`adminThen
      modifies world`calls, world`sql, recorder`sequence, recorder`previous, recorder`phases, table
      ensures Inv() && (o.Done? ==> !adminAbsent && (adminCreated ==> adminSeen))
      ensures Calm() && old(Smooth(18)) && world.prompt ==>
                o.Done? && Smooth(24) && world.sql.users == {Root, BootstrapAdmin}
      ensures FewDeletes(old(world.calls), world.calls, 0, 0)
    {
      hide Inv, AdminDeletes, IngressDeletes, FreshClusterTable.ControllerTable.Durable, Smooth, Expected;
      :- ObserveAdmin();
      :- Check(Calm());
      :- Record(ADMIN_AUTHENTICATED, false);
      :- Check(Calm());
      o := Record(RUNNER_EGRESS_REOBSERVED_BEFORE_BOOTSTRAP, false);
    }

    /** One step of the recovery publication: announce, perform, accept. */
    method Publish(action: Action, dispatching: Phase, accepted: Phase) returns (o: Outcome)
      requires Inv() && dispatching in DispatchPhases(action) && Known(dispatching) && Known(accepted)
      requires Rank(dispatching) < 43 && Rank(accepted) < 43 && !action.DeleteSqlAdmin? && !action.DeleteIngress?
      requires MayRecord(dispatching) && MayRecord(accepted)
      modifies world`calls, recorder`sequence, recorder`previous, recorder`phases, table
      ensures Inv()
      ensures Calm() && old(Smooth(Rank(dispatching))) && Rank(dispatching) < Rank(accepted) ==>
                o.Done? && forall n: nat :: n > Rank(accepted) ==> Smooth(n)
      ensures FewDeletes(old(world.calls), world.calls, 0, 0)
    {
      hide Inv, AdminDeletes, IngressDeletes, FreshClusterTable.ControllerTable.Durable, Smooth;
      hide Rank, DispatchPhases, Known, MayRecord;
      :- Record(dispatching, true);
      var performed := Perform(action, dispatching);
      if !performed {
        return Threw;
      }
      o := Record(accepted, false);
    }

    lemma RecoveryRanks()
      ensures Rank(RECOVERY_SOURCE_AND_PREPARATION_DISPATCHING) == 26
      ensures Rank(RECOVERY_SOURCE_AND_PREPARATION_ACCEPTED) == 27
      ensures Rank(RECOVERY_PUBLICATION_APPEND_DISPATCHING) == 28 && Rank(RECOVERY_PUBLICATION_APPEND_ACCEPTED) == 29
      ensures Rank(RECOVERY_PUBLICATION_REPLAY_DISPATCHING) == 30 && Rank(RECOVERY_PUBLICATION_REPLAY_ACCEPTED) == 31
      ensures Known(RECOVERY_SOURCE_AND_PREPARATION_DISPATCHING) && Known(RECOVERY_SOURCE_AND_PREPARATION_ACCEPTED)
      ensures Known(RECOVERY_PUBLICATION_APPEND_DISPATCHING) && Known(RECOVERY_PUBLICATION_APPEND_ACCEPTED)
      ensures Known(RECOVERY_PUBLICATION_REPLAY_DISPATCHING) && Known(RECOVERY_PUBLICATION_REPLAY_ACCEPTED)
      ensures RECOVERY_SOURCE_AND_PREPARATION_DISPATCHING in DispatchPhases(PrepareRecovery)
      ensures RECOVERY_PUBLICATION_APPEND_DISPATCHING in DispatchPhases(AppendPublication)
      ensures RECOVERY_PUBLICATION_REPLAY_DISPATCHING in DispatchPhases(ReplayPublication)
    {
    }

    method PublishRecovery() returns (o: Outcome)
      requires Inv()
      modifies world`calls, recorder`sequence, recorder`previous, recorder`phases, table
      ensures Inv()
      ensures Calm() && old(Smooth(26)) ==> o.Done? && Smooth(34)
      ensures FewDeletes(old(world.calls), world.calls, 0, 0)
    {
      RecoveryRanks();
      hide Inv, AdminDeletes, IngressDeletes, FreshClusterTable.ControllerTable.Durable, Smooth;
      hide Rank, Known, DispatchPhases;
      :- Publish(PrepareRecovery, RECOVERY_SOURCE_AND_PREPARATION_DISPATCHING,
          RECOVERY_SOURCE_AND_PREPARATION_ACCEPTED);
      :- Publish(AppendPublication, RECOVERY_PUBLICATION_APPEND_DISPATCHING, RECOVERY_PUBLICATION_APPEND_ACCEPTED);
      :- Publish(ReplayPublication, RECOVERY_PUBLICATION_REPLAY_DISPATCHING, RECOVERY_PUBLICATION_REPLAY_ACCEPTED);
      o := QueryManagedMcp();
    }

    method QueryManagedMcp() returns (o: Outcome)
      requires Inv()
      modifies recorder`sequence, recorder`previous, recorder`phases, table
      ensures Inv()
      ensures Calm() && old(Smooth(32)) ==> o.Done? && Smooth(34)
    {
      hide Inv, AdminDeletes, IngressDeletes, FreshClusterTable.ControllerTable.Durable, Smooth;
      :- Check(Calm());
      :- Record(RECOVERY_MANAGED_MCP_REQUEST_PLANNED, false);
      :- Check(Calm());
      o := Record(RECOVERY_MANAGED_MCP_QUERY_ACCEPTED, false);
    }

    method BootstrapAndPublish() returns (o: Outcome)
      requires Inv() && !adminAbsent && sqlBaseline.Some?
      modifies world`calls, world`sql, recorder`sequence, recorder`previous, recorder`phases, table
      ensures Inv()
      ensures Calm() && old(Smooth(24)) && old(world.sql.users) == sqlBaseline.value + {BootstrapAdmin} ==>
                o.Done? && Smooth(35) && world.sql.users == sqlBaseline.value + RUNTIME_USERS + {BootstrapAdmin}
      ensures FewDeletes(old(world.calls), world.calls, 0, 0)
    {
      hide Inv, AdminDeletes, IngressDeletes, FreshClusterTable.ControllerTable.Durable, Smooth;
      :- Record(BOOTSTRAP_DISPATCHING, true);
      var bootstrapped := Bootstrap();
      if !bootstrapped {
        return Threw;
      }
      :- Record(BOOTSTRAP_ACCEPTED, false);
      :- PublishRecovery();
      :- RequireUsers(sqlBaseline.value + RUNTIME_USERS + {BootstrapAdmin});
      o := Record(POST_BOOTSTRAP_SQL_USER_INVENTORY_ACCEPTED, false);
    }

    /** A delete that threw counts only if the complete inventory shows it took effect. */
    method DispatchAdminDelete() returns (o: Outcome)
      requires Inv() && !adminAbsent && sqlBaseline.Some?
      modifies world`calls, world`sql, recorder`sequence, recorder`previous, recorder`phases, table
      ensures Inv()
      ensures Calm() && old(Smooth(35)) ==>
                o.Done? && Smooth(38) && world.sql.users == old(world.sql.users) - {BootstrapAdmin}
      ensures FewDeletes(old(world.calls), world.calls, 1, 0)
    {
      hide Inv, AdminDeletes, IngressDeletes, FreshClusterTable.ControllerTable.Durable, Smooth;
      Rise(35, 36);
      :- Check(Calm());
      :- Record(ADMIN_DELETE_DISPATCHING, true);
      var acknowledged := DeleteAdmin();
      if !acknowledged {
        :- RequireUsers(sqlBaseline.value + RUNTIME_USERS);
        :- Record(ADMIN_DELETE_ACKNOWLEDGEMENT_RECONCILED, false);
      }
      return Done;
    }

    method RevokeAdmin() returns (o: Outcome)
      requires Inv() && !adminAbsent && sqlBaseline.Some?
      modifies this`adminAbsent, this`adminThen, world`calls, world`sql
      modifies recorder`sequence, recorder`previous, recorder`phases, table
      ensures Inv() && (o.Done? ==> adminAbsent && BootstrapAdmin !in world.sql.users)
      ensures Calm() && old(Smooth(35)) && old(world.sql.users) == {Root} + RUNTIME_USERS + {BootstrapAdmin} ==>
                o.Done? && Smooth(40)
      ensures FewDeletes(old(world.calls), world.calls, 1, 0)
    {
      hide Inv, AdminDeletes, IngressDeletes, FreshClusterTable.ControllerTable.Durable, Smooth;
      :- DispatchAdminDelete();
      :- RequireUsers({Root} + RUNTIME_USERS);
      SeeAdminGone();
      :- Record(ADMIN_DELETE_ABSENT, false);
      :- Check(Calm());
      o := Record(FINAL_PRINCIPAL_CENSUS_ACCEPTED, false);
    }

    method DispatchIngressDelete() returns (o: Outcome)
      requires Inv() && !ingressAbsent
      modifies world`calls, world`ingress, recorder`sequence, recorder`previous, recorder`phases, table
      ensures Inv()
      ensures Calm() && old(Smooth(40)) ==>
                o.Done? && Smooth(42) && world.ingress == old(world.ingress.(entries := {}))
      ensures FewDeletes(old(world.calls), world.calls, 0, 1)
    {
      hide Inv, AdminDeletes, IngressDeletes, FreshClusterTable.ControllerTable.Durable, Smooth;
      :- Check(Calm());
      :- Record(INGRESS_DELETE_DISPATCHING, true);
      OpenIngressKnown();
      var acknowledged := DeleteIngress();
      if !acknowledged {
        :- RequireAllowlist({});
        :- Record(INGRESS_DELETE_ACKNOWLEDGEMENT_RECONCILED, false);
      }
      return Done;
    }

    method CloseIngress() returns (o: Outcome)
      requires Inv() && !ingressAbsent
      modifies this`ingressAbsent, this`entriesThen, world`calls, world`ingress
      modifies recorder`sequence, recorder`previous, recorder`phases, table
      ensures Inv() && (o.Done? ==> ingressAbsent && world.ingress.entries == {})
      ensures Calm() && old(Smooth(40)) ==> o.Done? && Smooth(43)
      ensures FewDeletes(old(world.calls), world.calls, 0, 1)
    {
      hide Inv, AdminDeletes, IngressDeletes, FreshClusterTable.ControllerTable.Durable, Smooth;
      :- DispatchIngressDelete();
      :- RequireAllowlist({});
      SeeIngressGone();
      o := Record(INGRESS_DELETE_ABSENT, false);
    }

    lemma OpenIngressKnown()
      requires Inv() && !ingressAbsent
      ensures ingressPossible && clusterKnown && ingressEntry.Some?
      ensures world.ingress.entries - {ingressEntry.value} == {}
    {
    }

    /** The `try` block up to the point where the administrator is to be used. */
    method ReachBaseline(entry: Entry) returns (o: Outcome)
      requires Inv() && Untouched()
      modifies this, world, recorder, table
      ensures Inv()
      ensures o.Done? ==> clusterKnown && !ingressAbsent && entrySeen && !adminCreated
      ensures o.Done? ==> adminPossible && sqlBaseline == Some({Root}) && world.sql.users == Expected()
      ensures Calm() && old(Smooth(0)) ==>
                && !o.Crashed? && Smooth(if o.Done? then 18 else 35) && (o.Threw? ==> clusterKnown && !adminPossible)
                && (o.Done? <==> old(world.sql.users) == Expected() && old(world.ingress.entries) == {} && world.prompt)
                && (!world.prompt && old(world.ingress.entries) == {} ==> world.ingress.pending == {entry})
      ensures FewDeletes(old(world.calls), world.calls, 0, 0)
    {
      hide Inv, AdminDeletes, IngressDeletes, Smooth, Expected;
      :- ObtainCluster();
      var chosen := ChooseIngress(entry);
      Rise(7, 35);
      if !chosen.Done? {
        return chosen;
      }
      var admitted := OpenIngress();
      Rise(11, 35);
      if !admitted.Done? {
        return admitted;
      }
      :- SealAdminCredential();
      o := ObserveBaseline();
      Rise(18, 35);
    }

    /** The rest of the `try` block: use the administrator, then take both accesses away. */
    method UseAndRevoke() returns (o: Outcome)
      requires Inv() && clusterKnown && !ingressAbsent && entrySeen && !adminCreated
      requires adminPossible && sqlBaseline == Some({Root}) && world.sql.users == Expected()
      modifies this, world, recorder, table
      ensures Inv()
      ensures o.Done? ==> adminAbsent && ingressAbsent && Revoked(world.sql, world.ingress)
      ensures o.Done? ==> NothingPending(world.sql, world.ingress)
      ensures Calm() && old(Smooth(18)) && world.prompt ==> o.Done? && Smooth(43)
      ensures FewDeletes(old(world.calls), world.calls, 1, 1)
    {
      hide Inv, AdminDeletes, IngressDeletes, Smooth, Expected;
      :- EnsureAdmin();
      :- BootstrapAndPublish();
      :- RevokeAdmin();
      o := CloseIngress();
      if o.Done? {
        SeenIsSettled();
      }
    }

    /** Everything inside the `try` block up to the final receipt. */
    method SuccessPath(entry: Entry) returns (o: Outcome)
      requires Inv() && Untouched()
      modifies this, world, recorder, table
      ensures Inv()
      ensures o.Done? ==> adminAbsent && ingressAbsent && Revoked(world.sql, world.ingress)
      ensures o.Done? ==> NothingPending(world.sql, world.ingress)
      ensures Calm() && old(Smooth(0)) ==>
                && !o.Crashed? && Smooth(if o.Done? then 43 else 35) && (o.Threw? ==> clusterKnown && !adminPossible)
                && (o.Done? <==> old(world.sql.users) == Expected() && old(world.ingress.entries) == {} && world.prompt)
                && (!world.prompt && old(world.ingress.entries) == {} ==> world.ingress.pending == {entry})
      ensures FewDeletes(old(world.calls), world.calls, 1, 1)
    {
      hide Inv, AdminDeletes, IngressDeletes, Smooth, Expected;
      :- ReachBaseline(entry);
      o := UseAndRevoke();
    }

    /** What was seen to be there and then seen to be gone does not come back. */
    lemma SeenIsSettled()
      requires Inv() && ingressAbsent && entrySeen && (adminCreated ==> adminSeen)
      ensures NothingPending(world.sql, world.ingress) && world.ingress.entries == {}
    {
    }

    // ----- Cleanup ----------------------------------------------------------------------------

    /** A failed adoption may never have looked for the administrator it was handed. */
    method DiscoverAdmin() returns (o: Outcome)
      requires Inv()
      modifies this`adminPossible, this`adminAbsent, this`sqlBaseline, world`sql
      modifies recorder`sequence, recorder`previous, recorder`phases, table
      ensures Inv()
      ensures Calm() && old(Smooth(35) && clusterKnown && !adminPossible) ==>
                o.Done? && Smooth(36) && (adminAbsent || (adminPossible && sqlBaseline.Some?))
    {
      hide Inv, Smooth;
      Rise(35, 36);
      if adminPossible || adminAbsent || !clusterKnown {
        return Done;
      }
      :- Check(Calm());
      var listed, discovered := ListUsers();
      if !listed {
        return Threw;
      }
      TakeDiscovery(discovered);
      o := Record(FAILURE_ADMIN_PRESTATE_DISCOVERED, false);
    }

    /** Outside the success path a phase already recorded is not recorded again. */
    method RecordOnce(phase: Phase, mutationDispatched: bool) returns (o: Outcome)
      requires Inv() && Known(phase) && Rank(phase) < 43 && MayRecord(phase)
      modifies recorder`sequence, recorder`previous, recorder`phases, table
      ensures Inv() && (o.Done? ==> phase in table.Durable())
      ensures Calm() && old(Smooth(Rank(phase))) ==> o.Done? && forall n: nat :: n > Rank(phase) ==> Smooth(n)
    {
      hide Inv, AdminDeletes, IngressDeletes, FreshClusterRecorder.Recorder.Exact, Rank;
      if phase in recorder.phases {
        RecordedIsDurable();
        return Done;
      }
      :- Check(Calm());
      o := Record(phase, mutationDispatched);
    }

    method RepeatAdminDelete() returns (o: Outcome)
      requires Inv() && !adminAbsent
      modifies world`calls, world`sql, recorder`sequence, recorder`previous, recorder`phases, table
      ensures Inv()
      ensures Calm() && old(Smooth(36)) ==> o.Done? && Smooth(38) && BootstrapAdmin !in world.sql.users
      ensures FewDeletes(old(world.calls), world.calls, 1, 0)
    {
      hide Inv, AdminDeletes, IngressDeletes, FreshClusterTable.ControllerTable.Durable, Smooth;
      :- RecordOnce(ADMIN_DELETE_DISPATCHING, true);
      var acknowledged := DeleteAdmin();
      if !acknowledged {
        :- RequireNoAdmin();
        :- RecordOnce(ADMIN_DELETE_ACKNOWLEDGEMENT_RECONCILED, false);
      }
      return Done;
    }

    method CleanUpAdmin() returns (o: Outcome)
      requires Inv() && !adminAbsent
      modifies this`adminAbsent, this`adminThen, world`calls, world`sql
      modifies recorder`sequence, recorder`previous, recorder`phases, table
      ensures Inv()
      ensures Calm() && old(Smooth(36)) ==> o.Done? && Smooth(39) && adminAbsent
      ensures FewDeletes(old(world.calls), world.calls, 1, 0)
    {
      hide Inv, AdminDeletes, IngressDeletes, FreshClusterTable.ControllerTable.Durable, Smooth;
      :- RepeatAdminDelete();
      :- RequireNoAdmin();
      SeeAdminGone();
      o := RecordOnce(ADMIN_DELETE_ABSENT, false);
    }

    method RepeatIngressDelete() returns (o: Outcome)
      requires Inv() && !ingressAbsent
      modifies world`calls, world`ingress, recorder`sequence, recorder`previous, recorder`phases, table
      ensures Inv()
      ensures Calm() && old(Smooth(40)) ==>
                o.Done? && Smooth(42) && world.ingress == old(world.ingress.(entries := {}))
      ensures FewDeletes(old(world.calls), world.calls, 0, 1)
    {
      hide Inv, AdminDeletes, IngressDeletes, FreshClusterTable.ControllerTable.Durable, Smooth;
      :- RecordOnce(INGRESS_DELETE_DISPATCHING, true);
      OpenIngressKnown();
      var acknowledged := DeleteIngress();
      if !acknowledged {
        :- RequireAllowlist({});
        :- RecordOnce(INGRESS_DELETE_ACKNOWLEDGEMENT_RECONCILED, false);
      }
      return Done;
    }

    method CleanUpIngress() returns (o: Outcome)
      requires Inv() && !ingressAbsent
      modifies this`ingressAbsent, this`entriesThen, world`calls, world`ingress
      modifies recorder`sequence, recorder`previous, recorder`phases, table
      ensures Inv()
      ensures Calm() && old(Smooth(40)) ==>
                o.Done? && Smooth(43) && ingressAbsent && world.ingress == old(world.ingress.(entries := {}))
      ensures FewDeletes(old(world.calls), world.calls, 0, 1)
    {
      hide Inv, AdminDeletes, IngressDeletes, FreshClusterTable.ControllerTable.Durable, Smooth;
      :- RepeatIngressDelete();
      :- RequireAllowlist({});
      SeeIngressGone();
      o := RecordOnce(INGRESS_DELETE_ABSENT, false);
    }

    /** After any failure: revoke what may exist, or throw because that is not known. */
    method CleanUp() returns (o: Outcome)
      requires Inv()
      modifies this, world, recorder, table
      ensures Inv()
      ensures Calm() && old(Smooth(35) && clusterKnown && !adminPossible) ==>
                && o.Done? && Smooth(43) && adminAbsent && ingressAbsent
                && world.ingress.pending == old(world.ingress.pending)
      ensures FewDeletes(old(world.calls), world.calls, 1, 1)
    {
      hide Inv, AdminDeletes, IngressDeletes, Smooth;
      var discovered := DiscoverAdmin();
      var admin, ingress := Done, Done;
      if discovered.Crashed? {
        return Crashed;
      }
      if adminPossible && !adminAbsent && clusterKnown && sqlBaseline.Some? {
        admin := CleanUpAdmin();
      }
      if admin.Crashed? {
        return Crashed;
      }
      Rise(36, 40);
      Rise(39, 40);
      Rise(40, 43);
      if !ingressAbsent {
        OpenIngressKnown();
      }
      if ingressPossible && !ingressAbsent && clusterKnown && ingressEntry.Some? {
        ingress := CleanUpIngress();
      }
      if ingress.Crashed? {
        return Crashed;
      }
      return if discovered.Done? && admin.Done? && ingress.Done? then Done else Threw;
    }

    // ----- Closing ----------------------------------------------------------------------------

    /** The receipt as built from the flags and the recorder's own position. */
    function ReceiptOf(status: Status): Record
      reads this, recorder
    {
      Receipt(table.command.commandSha256, table.command.operationId, recorder.previous, recorder.sequence, status,
              adminAbsent, ingressAbsent, ADMIN_SECRET_SEALED in recorder.phases)
    }

    /** Every receipt sent claims an absent administrator and an empty allowlist. */
    ghost predicate ReceiptsClaimClean()
      reads table
    {
      forall w :: w in table.sent && !w.Append? ==>
        w.receipt.Receipt? && w.receipt.adminSqlPrincipalAbsent && w.receipt.ingressEmpty
    }

    method SendReceipt(w: Write) returns (o: Outcome)
      requires recorder.table == table && recorder.Synced() && ReceiptsClaimClean() && adminAbsent && ingressAbsent
      requires Announced()
      requires w == Finish(table.command, ReceiptOf(PROVIDER_KEYS_REVOCATION_PENDING)) ||
               w == Terminalize(table.command, ReceiptOf(FAILED_CLUSTER_RETAINED_NO_AUTOMATIC_TEARDOWN))
      modifies table
      ensures recorder.Synced() && ReceiptsClaimClean() && Announced()
      ensures table.sent == old(table.sent) + [w] && w in table.sent
      ensures o.Done? ==> Contains(table.Log(), w)
      ensures Calm() ==> !o.Crashed? && (old(recorder.Exact()) ==> o.Done?)
    {
      hide FreshClusterRecorder.Recorder.Synced;
      assert WellFormed(w) && Previous(w) == recorder.previous by { SyncedReceipt(w); }
      o := recorder.Close(w);
    }

    lemma SyncedReceipt(w: Write)
      requires recorder.table == table && recorder.Synced()
      requires w == Finish(table.command, ReceiptOf(PROVIDER_KEYS_REVOCATION_PENDING)) ||
               w == Terminalize(table.command, ReceiptOf(FAILED_CLUSTER_RETAINED_NO_AUTOMATIC_TEARDOWN))
      ensures WellFormed(w) && Previous(w) == recorder.previous
    {
    }

    /**
      The whole run. However it fails, and even where a create or delete took effect and still threw, it sends a
      final or terminal receipt only when what it added or adopted was seen to be gone; otherwise the journal stays
      open. Receipts always claim an absent administrator and an empty allowlist. If nothing arrived late, the claim is
      true exactly unless the run started on a cluster that already had the administrator it meant to create, or a
      foreign entry. A final receipt is true and stays true; a create that may still arrive after the run was announced
      and never recorded as observed.
     */
    method Execute(entry: Entry) returns (result: Ending)
      requires Inv() && Untouched()
      modifies this, world, recorder, table
      ensures recorder.table == table && recorder.Synced() && OwnCalls(world.calls)
      ensures ReceiptsClaimClean()
      ensures !NoReceipt(table.sent) ==> Cleaned()
      ensures !NoReceipt(table.sent) && NothingLate(world.sql, world.ingress) ==>
                (Revoked(world.sql, world.ingress) <==>
                 !(table.command.clusterMode.CREATE_NEW? && BootstrapAdmin in users0) && allowlist0 == {})
      ensures (exists w :: w in table.sent && w.Finish?) ==>
                Revoked(world.sql, world.ingress) && NothingPending(world.sql, world.ingress)
      ensures PendingIsUnobserved(table, world) && (Calm() ==> NothingLate(world.sql, world.ingress))
      ensures result.CleanupPending? ==> NoReceipt(table.sent) && IsOpen(table.Log())
      ensures NoReceipt(table.sent) ==> result.CleanupPending? || result.Interrupted?
      ensures result.Finalized? ==> table.Log().finalReceipt.Some?
      ensures result.FailedAndTerminalized? ==> table.Log().terminalReceipt.Some?
      ensures Calm() && old(Smooth(0)) ==>
                && (result.Finalized? <==>
                    old(world.sql.users) == Expected() && old(world.ingress.entries) == {} && world.prompt)
                && (result.FailedAndTerminalized? <==> !result.Finalized?)
                && (!world.prompt && old(world.ingress.entries) == {} ==> world.ingress.pending == {entry})
      ensures old(world.calls) <= world.calls && FewDeletes(old(world.calls), world.calls, 2, 2)
    {
      hide Inv, AdminDeletes, IngressDeletes, FreshClusterRecorder.Recorder.Synced, OwnCalls, Announced;
      hide PendingIsUnobserved;
      var attempt := SuccessPath(entry);
      if attempt.Done? {
        InvParts();
        var finalized := SendReceipt(Finish(table.command, ReceiptOf(PROVIDER_KEYS_REVOCATION_PENDING)));
        UnseenIsUnobserved();
        if !finalized.Threw? {
          return if finalized.Done? then Finalized else Interrupted;
        }
      } else if attempt.Crashed? {
        InvParts();
        UnseenIsUnobserved();
        return Interrupted;
      } else {
        var cleaned := CleanUp();
        InvParts();
        UnseenIsUnobserved();
        if !cleaned.Done? || !adminAbsent || !ingressAbsent {
          return if cleaned.Crashed? then Interrupted else CleanupPending;
        }
      }
      var terminalized := SendReceipt(Terminalize(table.command,
          ReceiptOf(FAILED_CLUSTER_RETAINED_NO_AUTOMATIC_TEARDOWN)));
      UnseenIsUnobserved();
      return match terminalized
        case Done => FailedAndTerminalized
        case Threw => ClosingUnknown
        case Crashed => Interrupted;
    }

    lemma InvParts()
      requires Inv()
      ensures recorder.table == table && recorder.Synced() && OwnCalls(world.calls) && Announced() && PendingIsUnseen()
      ensures NoReceipt(table.sent) && ReceiptsClaimClean() && IsOpen(table.Log())
      ensures ingressAbsent && adminAbsent ==> Cleaned()
      ensures Calm() ==> NothingLate(world.sql, world.ingress)
    {
    }

    ghost predicate PendingIsUnseen()
      reads this, world
    {
      && (world.sql.pending ==> adminCreated && !adminSeen)
      && (world.ingress.pending != {} ==> ingressPossible && !entrySeen)
    }

    lemma UnseenIsUnobserved()
      requires Announced() && PendingIsUnseen()
      ensures PendingIsUnobserved(table, world)
    {
    }
  }

  /** What may still arrive was announced in the journal, and nothing was ever sent that records it as observed. */
  ghost predicate PendingIsUnobserved(table: ControllerTable, world: CloudWorld)
    reads table, world
  {
    && (world.sql.pending ==> ADMIN_CREATE_DISPATCHING in table.Durable())
    && (world.ingress.pending != {} ==> INGRESS_CREATE_DISPATCHING in table.Durable())
    && (forall w :: w in table.sent && AppendsPhase(w, ADMIN_CREATE_OBSERVED) ==> !world.sql.pending)
    && (forall w :: w in table.sent && AppendsPhase(w, INGRESS_CREATE_OBSERVED) ==> world.ingress.pending == {})
  }

  /** So a journal that records a creation as observed, or does not announce it, vouches that nothing arrives later. */
  lemma JournalTellsWhatIsPending(table: ControllerTable, world: CloudWorld)
    requires table.Valid() && PendingIsUnobserved(table, world)
    ensures ADMIN_CREATE_OBSERVED in table.Durable() || ADMIN_CREATE_DISPATCHING !in table.Durable() ==>
              !world.sql.pending
    ensures INGRESS_CREATE_OBSERVED in table.Durable() || INGRESS_CREATE_DISPATCHING !in table.Durable() ==>
              world.ingress.pending == {}
  {
    if ADMIN_CREATE_OBSERVED in table.Durable() {
      var t :| t in table.Log().transitions && PhaseOf(t) == ADMIN_CREATE_OBSERVED;
      assert AppendsPhase(Append(table.command, t), ADMIN_CREATE_OBSERVED);
    }
    if INGRESS_CREATE_OBSERVED in table.Durable() {
      var t :| t in table.Log().transitions && PhaseOf(t) == INGRESS_CREATE_OBSERVED;
      assert AppendsPhase(Append(table.command, t), INGRESS_CREATE_OBSERVED);
    }
  }
}
