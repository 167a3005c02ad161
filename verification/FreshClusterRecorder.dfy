/**
  What both cluster controllers share: the local variables through which they append to the journal, and the
  external world whose every mutation is logged with the phases durable when it was dispatched.
 */
module FreshClusterRecorder {
  import opened Options
  import opened FreshClusterJournal
  import opened FreshClusterWrites
  import opened FreshClusterTable

  /** A call that may throw, or during which the process may die. */
  datatype Outcome = Done | Threw | Crashed {
    predicate IsFailure() { !Done? }
    function PropagateFailure(): Outcome requires IsFailure() { this }
  }

  method Fail(calm: bool) returns (o: Outcome)
    ensures !o.Done? && (calm ==> o.Threw?)
  {
    var dies: bool := *;
    return if dies && !calm then Crashed else Threw;
  }

  /** Any step whose only relevant outcome is that it may throw: clocks, validators, reads of other resources. */
  method Check(calm: bool) returns (o: Outcome)
    ensures calm ==> o.Done?
  {
    var ok: bool := *;
    if ok || calm {
      return Done;
    }
    o := Fail(calm);
  }

  /** A writer's position: `n` links of the journal, the receipt before the next one, and the phases so far. */
  ghost predicate At(j: Journal, c: Command, n: nat, previous: Digest, phases: set<Phase>) {
    && n <= |j.transitions| && previous == Tail(j, n) && phases == PhasesBefore(previous)
    && (previous.preimage.Reservation? || previous.preimage.Transition?)
    && previous.preimage.binding == BindingOf(c) && LinkedAfter(previous, n)
  }

  lemma StillAt(j: Journal, k: Journal, c: Command, n: nat, previous: Digest, phases: set<Phase>)
    requires At(j, c, n, previous, phases) && Grows(j, k)
    ensures At(k, c, n, previous, phases)
  {
  }

  lemma NextAt(k: Journal, c: Command, n: nat, previous: Digest, phases: set<Phase>, t: Record)
    requires At(k, c, n, previous, phases)
    requires Contains(k, FreshClusterWrites.Append(c, t)) && TransitionFits(t, c, n, previous)
    ensures At(k, c, n + 1, Sha256(t), phases + {t.phase})
  {
  }

  lemma OneLonger(j: Journal, c: Command, t: Record)
    requires IsOpen(j)
    ensures var k := Extend(j, FreshClusterWrites.Append(c, t)); IsOpen(k) && |k.transitions| == |j.transitions| + 1
  {
  }

  lemma NextIsWellFormed(j: Journal, c: Command, n: nat, previous: Digest, phases: set<Phase>, t: Record)
    requires At(j, c, n, previous, phases) && n <= 51
    requires TransitionFits(t, c, n, previous) && Known(t.phase) && t.phase !in phases
    ensures WellFormed(FreshClusterWrites.Append(c, t))
  {
  }

  predicate AppendsPhase(w: Write, phase: Phase) {
    w.Append? && w.transition.Transition? && w.transition.phase == phase
  }

  /** `sequence`, `previousReceiptSha256` and `phases` of a controller. */
  class Recorder {
    const table: ControllerTable
    var sequence: nat
    var previous: Digest
    var phases: set<Phase>

    /** The local variables describe an exact durable prefix of the journal. */
    ghost predicate Synced()
      reads this, table
    {
      table.Valid() && table.item.Some? && At(table.Log(), table.command, sequence, previous, phases)
    }

    /** Nothing is in doubt: the local variables describe the whole journal, and it is open. */
    ghost predicate Exact()
      reads this, table
    {
      Synced() && IsOpen(table.Log()) && sequence == |table.Log().transitions|
    }

    /** The main controller starts from its reservation, the reconciler from the last record of an open journal. */
    constructor (t: ControllerTable, j: Journal)
      requires t.Valid() && t.item.Some? && JournalOk(j, t.command) && IsOpen(j) && Grows(j, t.Log())
      ensures table == t && Synced() && phases == Phases(j.transitions) && sequence == |j.transitions|
      ensures j == t.Log() ==> Exact()
    {
      table := t;
      sequence := |j.transitions|;
      previous := LastReceipt(j);
      phases := Phases(j.transitions);
      PhasesAlongChain(Sha256(j.reservation), j.command, j.transitions);
      if |j.transitions| > 0 {
        assert LinkAt(Sha256(j.reservation), j.command, j.transitions, |j.transitions| - 1);
      }
    }

    /** Everything the controller believes recorded is durable. */
    lemma PhasesAreDurable()
      requires Synced()
      ensures phases <= Phases(table.Log().transitions)
    {
      DecodeOk(table.item.value, table.command);
      var j := table.Log();
      LinkedPrefix(Sha256(j.reservation), j.command, j.transitions, sequence);
      PhasesAlongChain(Sha256(j.reservation), j.command, j.transitions[..sequence]);
      forall t | t in j.transitions[..sequence] ensures t in j.transitions {}
    }

    /** At an exact position the next write passes its condition. */
    lemma NextPasses(w: Write)
      requires Exact() && WellFormed(w) && w.command == table.command && Previous(w) == previous
      ensures Condition(w, table.item.value)
    {
      DecodeOk(table.item.value, table.command);
      ConditionIsCompareLastReceipt(table.Log(), w);
    }

    lemma RoomForOneMore()
      requires Synced()
      ensures sequence <= 51
    {
      OkIsAcceptable(table.item.value, table.command);
    }

    /** Send one transition; only when it is durable do the local variables advance. */
    method Advance(t: Record) returns (o: Outcome)
      requires Synced() && TransitionFits(t, table.command, sequence, previous)
      requires WellFormed(FreshClusterWrites.Append(table.command, t))
      modifies this`sequence, this`previous, this`phases, table`item, table`sent
      ensures Synced() && Grows(old(table.Log()), table.Log())
      ensures table.sent == old(table.sent) + [FreshClusterWrites.Append(table.command, t)]
      ensures phases == old(phases) + (if o.Done? then {t.phase} else {})
      ensures sequence == old(sequence) + (if o.Done? then 1 else 0)
      ensures o.Done? ==> Contains(table.Log(), FreshClusterWrites.Append(table.command, t))
      ensures table.calm && old(Exact()) ==> o.Done? && Exact()
      ensures table.calm && !old(Condition(FreshClusterWrites.Append(table.command, t), table.item.value)) ==>
                (o.Done? <==> old(table.Shows(FreshClusterWrites.Append(table.command, t))))
    {
      hide At, WellFormed, FreshClusterTable.ControllerTable.Valid, Contains, Grows, Extend, Condition;
      var w := FreshClusterWrites.Append(table.command, t);
      ghost var before := table.Log();
      if Exact() {
        NextPasses(w);
        OneLonger(before, table.command, t);
      }
      var ok := table.UpdateOnce(w);
      StillAt(before, table.Log(), table.command, sequence, previous, phases);
      if !ok {
        o := Fail(table.calm);
        return;
      }
      NextAt(table.Log(), table.command, sequence, previous, phases, t);
      previous := Sha256(t);
      phases := phases + {t.phase};
      sequence := sequence + 1;
      return Done;
    }

    /** Append one transition; on any doubt the local variables stay where they were. */
    method Append(phase: Phase, payload: nat, mutationDispatched: bool) returns (o: Outcome)
      requires Synced() && Known(phase) && phase !in phases
      modifies this`sequence, this`previous, this`phases, table`item, table`sent
      ensures Synced() && Grows(old(table.Log()), table.Log())
      ensures phases == old(phases) + (if o.Done? then {phase} else {})
      ensures sequence == old(sequence) + (if o.Done? then 1 else 0)
      ensures table.calm && old(Exact()) ==> o.Done? && Exact()
      ensures |table.sent| == |old(table.sent)| + 1 && old(table.sent) <= table.sent
      ensures AppendsPhase(table.sent[|old(table.sent)|], phase)
    {
      RoomForOneMore();
      var t := Transition(BindingOf(table.command), previous, sequence, sequence + 2, phase, mutationDispatched,
          payload);
      NextIsWellFormed(table.Log(), table.command, sequence, previous, phases, t);
      hide At, WellFormed, FreshClusterTable.ControllerTable.Valid, Grows, Exact, Synced;
      o := Advance(t);
    }

    /** Send a receipt that closes the journal at the controller's own position. */
    method Close(w: Write) returns (o: Outcome)
      requires Synced() && !w.Append? && WellFormed(w) && w.command == table.command
      requires Previous(w) == previous
      modifies table
      ensures Synced() && table.sent == old(table.sent) + [w] && Grows(old(table.Log()), table.Log())
      ensures o.Done? ==> Contains(table.Log(), w)
      ensures table.calm ==> !o.Crashed? && (old(Exact()) ==> o.Done?)
    {
      if Exact() {
        NextPasses(w);
      }
      var ok := table.UpdateOnce(w);
      if ok {
        return Done;
      }
      o := Fail(table.calm);
    }
  }

  // ----- The external world -------------------------------------------------------------------

  datatype User = Root | BootstrapAdmin | RuntimeUser(n: nat) | OtherUser(n: nat)

  const RUNTIME_USERS: set<User> := set n: nat | n < 14 :: RuntimeUser(n)

  datatype Entry = Entry(ipv4: nat, operationId: nat)

  datatype Action =
    | CreateCluster | AddIngress(added: Entry) | SealAdminSecret | CreateSqlAdmin | RunBootstrap
    | PrepareRecovery | AppendPublication | ReplayPublication
    | DeleteSqlAdmin | DeleteIngress(removed: Entry)

  /** A dispatched mutation and the phases durable at that moment. */
  datatype Call = Call(action: Action, durable: set<Phase>)

  /**
    The SQL users; whether a create of the administrator was sent that has not taken effect and still may; and whether
    one took effect after its call had returned.
   */
  datatype Accounts = Accounts(users: set<User>, pending: bool, late: bool)

  /** The same of the allowlist: its entries, those still to arrive, and those that arrived late. */
  datatype Allowlist = Allowlist(entries: set<Entry>, pending: set<Entry>, late: set<Entry>)

  /** Time passes: a create still pending may take effect. */
  predicate AdminMayArrive(before: Accounts, after: Accounts) {
    after == before || (before.pending && after == Accounts(before.users + {BootstrapAdmin}, false, true))
  }

  predicate EntriesMayArrive(before: Allowlist, after: Allowlist) {
    && after.pending <= before.pending
    && after.entries == before.entries + (before.pending - after.pending)
    && after.late == before.late + (before.pending - after.pending)
  }

  predicate NothingPending(sql: Accounts, ingress: Allowlist) {
    !sql.pending && ingress.pending == {}
  }

  /** No access is left. */
  predicate Revoked(sql: Accounts, ingress: Allowlist) {
    BootstrapAdmin !in sql.users && ingress.entries == {}
  }

  /** No access is left but what arrived after its call had returned. */
  predicate RevokedButForLate(sql: Accounts, ingress: Allowlist) {
    (BootstrapAdmin in sql.users ==> sql.late) && ingress.entries <= ingress.late
  }

  predicate NothingLate(sql: Accounts, ingress: Allowlist) {
    !sql.late && ingress.late == {}
  }

  /**
    What a run sees of the cloud: only its own calls change it, each may throw whatever it does. A delete takes effect
    at once or never; a create of access at once or at any later moment, or never.
   */
  class CloudWorld {
    /** The operation's journal table, read only to log what was durable at each mutation. */
    const table: ControllerTable
    /** In a calm environment every call is answered, and every mutation but a slow create takes effect at once. */
    const calm: bool
    /** In a calm environment that is not prompt, creates of access throw and take effect only after the run. */
    const prompt: bool
    var sql: Accounts
    var ingress: Allowlist
    ghost var calls: seq<Call>

    constructor (t: ControllerTable, users0: set<User>, entries0: set<Entry>, quiet: bool, quick: bool)
      ensures table == t && sql == Accounts(users0, false, false) && ingress == Allowlist(entries0, {}, {})
      ensures calls == [] && calm == quiet && prompt == quick
    {
      table, calm, prompt, calls := t, quiet, quick, [];
      sql, ingress := Accounts(users0, false, false), Allowlist(entries0, {}, {});
    }

    /** A create of the administrator arrives, if one is pending. */
    method ArriveAdmin()
      modifies this`sql
      ensures AdminMayArrive(old(sql), sql) && !sql.pending
    {
      if sql.pending {
        sql := Accounts(sql.users + {BootstrapAdmin}, false, true);
      }
    }

    method ArriveEntries(arriving: set<Entry>)
      modifies this`ingress
      ensures EntriesMayArrive(old(ingress), ingress) && ingress.pending == old(ingress.pending) - arriving
    {
      var arrived := ingress.pending * arriving;
      ingress := Allowlist(ingress.entries + arrived, ingress.pending - arrived, ingress.late + arrived);
    }

    method WaitForAdmin()
      modifies this`sql
      ensures AdminMayArrive(old(sql), sql) && (calm ==> sql == old(sql))
    {
      var arrives: bool := *;
      if arrives && !calm {
        ArriveAdmin();
      }
    }

    method WaitForEntries()
      modifies this`ingress
      ensures EntriesMayArrive(old(ingress), ingress) && (calm ==> ingress == old(ingress))
    {
      var arriving: set<Entry> := *;
      if !calm {
        ArriveEntries(arriving);
      }
    }

    /** A complete inventory, or an error. */
    method ListSqlUsers() returns (ok: bool, names: set<User>)
      modifies this`sql
      ensures AdminMayArrive(old(sql), sql) && (ok ==> names == sql.users)
      ensures calm ==> ok && sql == old(sql)
    {
      WaitForAdmin();
      var answered: bool := *;
      ok := answered || calm;
      names := sql.users;
    }

    method ListAllowlist() returns (ok: bool, entries: set<Entry>)
      modifies this`ingress
      ensures EntriesMayArrive(old(ingress), ingress) && (ok ==> entries == ingress.entries)
      ensures calm ==> ok && ingress == old(ingress)
    {
      WaitForEntries();
      var answered: bool := *;
      ok := answered || calm;
      entries := ingress.entries;
    }

    /** A mutation of anything but users and allowlist. */
    method Perform(action: Action) returns (ok: bool)
      modifies this`calls
      ensures calls == old(calls) + [Call(action, table.Durable())]
      ensures calm ==> ok
    {
      calls := calls + [Call(action, table.Durable())];
      var answered: bool := *;
      ok := answered || calm;
    }

    method AddTemporaryIngress(e: Entry) returns (ok: bool)
      modifies this`calls, this`ingress
      ensures calls == old(calls) + [Call(AddIngress(e), table.Durable())]
      ensures ingress == old(ingress) || ingress == old(ingress).(entries := old(ingress.entries) + {e}) ||
              ingress == old(ingress).(pending := old(ingress.pending) + {e})
      ensures calm && prompt ==> ok && ingress == old(ingress).(entries := old(ingress.entries) + {e})
      ensures calm && !prompt ==> !ok && ingress == old(ingress).(pending := old(ingress.pending) + {e})
    {
      calls := calls + [Call(AddIngress(e), table.Durable())];
      var takesEffect, mayArrive, answered: bool := *, *, *;
      if if calm then prompt else takesEffect {
        ingress := ingress.(entries := ingress.entries + {e});
      } else if calm || mayArrive {
        ingress := ingress.(pending := ingress.pending + {e});
      }
      ok := if calm then prompt else answered;
    }

    method DeleteTemporaryIngress(e: Entry) returns (ok: bool)
      modifies this`calls, this`ingress
      ensures calls == old(calls) + [Call(DeleteIngress(e), table.Durable())]
      ensures exists arrived :: EntriesMayArrive(old(ingress), arrived) &&
                (ingress == arrived || ingress == arrived.(entries := arrived.entries - {e}))
      ensures calm ==> ok && ingress == old(ingress).(entries := old(ingress.entries) - {e})
    {
      calls := calls + [Call(DeleteIngress(e), table.Durable())];
      WaitForEntries();
      var takesEffect, answered: bool := *, *;
      if takesEffect || calm {
        ingress := ingress.(entries := ingress.entries - {e});
      }
      ok := answered || calm;
    }

    method CreateAdmin() returns (ok: bool)
      modifies this`calls, this`sql
      ensures calls == old(calls) + [Call(CreateSqlAdmin, table.Durable())]
      ensures sql == old(sql) || sql == old(sql).(users := old(sql.users) + {BootstrapAdmin}) ||
              sql == old(sql).(pending := true)
      ensures calm && prompt ==> ok && sql == old(sql).(users := old(sql.users) + {BootstrapAdmin})
      ensures calm && !prompt ==> !ok && sql == old(sql).(pending := true)
    {
      calls := calls + [Call(CreateSqlAdmin, table.Durable())];
      var takesEffect, mayArrive, answered: bool := *, *, *;
      if if calm then prompt else takesEffect {
        sql := sql.(users := sql.users + {BootstrapAdmin});
      } else if calm || mayArrive {
        sql := sql.(pending := true);
      }
      ok := if calm then prompt else answered;
    }

    method DeleteAdmin() returns (ok: bool)
      modifies this`calls, this`sql
      ensures calls == old(calls) + [Call(DeleteSqlAdmin, table.Durable())]
      ensures exists arrived :: AdminMayArrive(old(sql), arrived) &&
                (sql == arrived || sql == arrived.(users := arrived.users - {BootstrapAdmin}))
      ensures calm ==> ok && sql == old(sql).(users := old(sql.users) - {BootstrapAdmin})
    {
      calls := calls + [Call(DeleteSqlAdmin, table.Durable())];
      WaitForAdmin();
      var takesEffect, answered: bool := *, *;
      if takesEffect || calm {
        sql := sql.(users := sql.users - {BootstrapAdmin});
      }
      ok := answered || calm;
    }

    /** The security bootstrap adds users of its own, never the bootstrap administrator. */
    method Bootstrap() returns (ok: bool)
      modifies this`calls, this`sql
      ensures calls == old(calls) + [Call(RunBootstrap, table.Durable())]
      ensures sql == old(sql).(users := sql.users)
      ensures sql.users >= old(sql.users) && (BootstrapAdmin in sql.users <==> old(BootstrapAdmin in sql.users))
      ensures calm ==> ok && sql.users == old(sql.users) + RUNTIME_USERS
    {
      calls := calls + [Call(RunBootstrap, table.Durable())];
      var created: set<User> := *;
      sql := sql.(users := sql.users + if calm then RUNTIME_USERS else created - {BootstrapAdmin});
      var answered: bool := *;
      ok := answered || calm;
    }
  }

  /** The phase a mutation must find durable. */
  function DispatchPhases(a: Action): set<Phase> {
    match a
    case CreateCluster => {CLUSTER_CREATE_DISPATCHING}
    case AddIngress(_) => {INGRESS_CREATE_DISPATCHING}
    case SealAdminSecret => {ADMIN_SECRET_DISPATCHING}
    case CreateSqlAdmin => {ADMIN_CREATE_DISPATCHING}
    case RunBootstrap => {BOOTSTRAP_DISPATCHING}
    case PrepareRecovery => {RECOVERY_SOURCE_AND_PREPARATION_DISPATCHING}
    case AppendPublication => {RECOVERY_PUBLICATION_APPEND_DISPATCHING}
    case ReplayPublication => {RECOVERY_PUBLICATION_REPLAY_DISPATCHING}
    case DeleteSqlAdmin => {ADMIN_DELETE_DISPATCHING, RECOVERY_ADMIN_DELETE_DISPATCHING}
    case DeleteIngress(_) => {INGRESS_DELETE_DISPATCHING, RECOVERY_INGRESS_DELETE_DISPATCHING}
  }

  /** How often a sequence of calls deleted the administrator, or an ingress entry. */
  function AdminDeletes(calls: seq<Call>): nat {
    if calls == [] then 0
    else AdminDeletes(calls[..|calls| - 1]) + if calls[|calls| - 1].action.DeleteSqlAdmin? then 1 else 0
  }

  function IngressDeletes(calls: seq<Call>): nat {
    if calls == [] then 0
    else IngressDeletes(calls[..|calls| - 1]) + if calls[|calls| - 1].action.DeleteIngress? then 1 else 0
  }

  lemma CountOneMore(calls: seq<Call>, c: Call)
    ensures AdminDeletes(calls + [c]) == AdminDeletes(calls) + if c.action.DeleteSqlAdmin? then 1 else 0
    ensures IngressDeletes(calls + [c]) == IngressDeletes(calls) + if c.action.DeleteIngress? then 1 else 0
  {
    assert (calls + [c])[..|calls|] == calls;
  }

  /** Every mutation was dispatched only with a phase of its own kind already durable. */
  ghost predicate WrittenAhead(calls: seq<Call>) {
    forall c :: c in calls ==> exists p :: p in DispatchPhases(c.action) && p in c.durable
  }
}
