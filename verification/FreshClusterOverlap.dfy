/**
  Why reconciliation runs must not overlap: two that read the same journal are kept apart only by the record that
  announces a delete, and two identical records do not keep them apart.
 */
module FreshClusterOverlap {
  import opened Options
  import opened FreshClusterJournal
  import opened FreshClusterWrites
  import opened FreshClusterTable
  import opened FreshClusterRecorder
  import opened FreshClusterReconciliation

  /** Two writers that stand at one place of one journal. */
  ghost predicate SamePlace(first: Recorder, second: Recorder)
    reads first, second, first.table, second.table
  {
    && first != second && first.table == second.table && first.Synced() && second.Synced()
    && first.sequence == second.sequence && first.previous == second.previous && first.phases == second.phases
  }

  /** The record with which a run announces a phase at its place. */
  function Announcement(c: Command, previous: Digest, sequence: nat, phase: Phase, payload: nat): Record {
    Transition(BindingOf(c), previous, sequence, sequence + 2, phase, true, payload)
  }

  /** A run that did nothing stands where it stood, however the journal grew. */
  lemma StillSynced(r: Recorder, before: Journal)
    requires r.table.Valid() && r.table.item.Some? && Grows(before, r.table.Log())
    requires At(before, r.table.command, r.sequence, r.previous, r.phases)
    ensures r.Synced()
  {
    StillAt(before, r.table.Log(), r.table.command, r.sequence, r.previous, r.phases);
  }

  lemma SyncedParts(r: Recorder)
    requires r.Synced()
    ensures r.table.Valid() && r.table.item.Some?
    ensures At(r.table.Log(), r.table.command, r.sequence, r.previous, r.phases)
  {
  }

  lemma SamePlaceParts(first: Recorder, second: Recorder)
    requires SamePlace(first, second)
    ensures first != second && first.table == second.table && first.phases == second.phases
    ensures first.sequence == second.sequence && first.previous == second.previous
    ensures first.table.Valid() && first.table.item.Some? && first.Synced() && second.Synced()
    ensures At(first.table.Log(), first.table.command, first.sequence, first.previous, first.phases)
  {
  }

  /** An announcement at a writer's place is a record it may send. */
  lemma AnnouncementFits(r: Recorder, phase: Phase, payload: nat)
    requires r.Synced() && Known(phase) && phase !in r.phases
    ensures var t := Announcement(r.table.command, r.previous, r.sequence, phase, payload);
      && t.Transition? && t.sequence == r.sequence && t.phase == phase
      && TransitionFits(t, r.table.command, r.sequence, r.previous) && WellFormed(Append(r.table.command, t))
  {
    r.RoomForOneMore();
    NextIsWellFormed(r.table.Log(), r.table.command, r.sequence, r.previous, r.phases,
                     Announcement(r.table.command, r.previous, r.sequence, phase, payload));
  }

  /** One place of a journal holds one record. */
  lemma OneRecord(j: Journal, k: Journal, c: Command, t: Record, u: Record)
    requires Contains(j, Append(c, t)) && Grows(j, k) && Contains(k, Append(c, u))
    requires t.Transition? && u.Transition? && t.sequence == u.sequence
    ensures t == u
  {
  }

  /** A record in the journal takes its slot: no other one passes there, and only the same one is shown. */
  lemma SlotIsTaken(table: ControllerTable, t: Record, u: Record)
    requires table.Valid() && table.item.Some? && Contains(table.Log(), Append(table.command, t))
    requires t.Transition? && u.Transition? && t.sequence == u.sequence
    ensures !Condition(Append(table.command, u), table.item.value)
    ensures table.Shows(Append(table.command, u)) <==> t == u
  {
    DecodeOk(table.item.value, table.command);
    assert t.sequence in Slots(table.Log().transitions);
  }

  /** A run announces at a place that may already hold a record: then it gets past it only with that same record. */
  method AnnounceAgain(r: Recorder, u: Record, ghost t: Record) returns (o: Outcome)
    requires r.Synced() && TransitionFits(u, r.table.command, r.sequence, r.previous)
    requires WellFormed(Append(r.table.command, u)) && t.Transition? && t.sequence == r.sequence
    modifies r`sequence, r`previous, r`phases, r.table`item, r.table`sent
    ensures r.Synced() && Grows(old(r.table.Log()), r.table.Log())
    ensures o.Done? ==> u.phase in r.phases
    ensures old(Contains(r.table.Log(), Append(r.table.command, t))) ==>
              (o.Done? ==> t == u) && (r.table.calm ==> (o.Done? <==> t == u))
  {
    SyncedParts(r);
    ghost var before, taken := r.table.Log(), Contains(r.table.Log(), Append(r.table.command, t));
    if taken {
      SlotIsTaken(r.table, t, u);
    }
    hide At, WellFormed, Grows, Condition, Contains;
    hide ControllerTable.Valid, ControllerTable.Shows, Recorder.Exact, Recorder.Synced;
    o := r.Advance(u);
    if taken && o.Done? {
      OneRecord(before, r.table.Log(), r.table.command, t, u);
    }
  }

  /**
    Two runs at one place announce one phase, one after the other and whatever lands in between. Both can only get
    past the announcement if the two records are one and the same; where nothing fails they both do exactly then.
   */
  method AnnounceTwice(first: Recorder, second: Recorder, phase: Phase, payload: nat, other: nat)
    returns (a: Outcome, b: Outcome)
    requires SamePlace(first, second) && Known(phase) && phase !in first.phases
    modifies first, second, first.table
    ensures first.Synced() && second.Synced()
    ensures a.Done? && b.Done? ==> payload == other
    ensures a.Done? ==> phase in first.phases
    ensures b.Done? ==> phase in second.phases
    ensures first.table.calm && old(first.Exact()) ==> a.Done? && (b.Done? <==> payload == other)
  {
    SamePlaceParts(first, second);
    AnnouncementFits(first, phase, payload);
    AnnouncementFits(second, phase, other);
    ghost var before := first.table.Log();
    var t := Announcement(first.table.command, first.previous, first.sequence, phase, payload);
    var u := Announcement(second.table.command, second.previous, second.sequence, phase, other);
    assert t == u <==> payload == other;
    hide SamePlace, Announcement, Known, TransitionFits, At, WellFormed, Grows, Condition, Contains;
    hide ControllerTable.Valid, ControllerTable.Shows, Recorder.Exact, Recorder.Synced;
    a := first.Advance(t);
    SyncedParts(first);
    StillSynced(second, before);
    ghost var between := first.table.Log();
    b := AnnounceAgain(second, u, t);
    SyncedParts(second);
    StillSynced(first, between);
  }

  /**
    So for every one record of an announced delete, two runs that do overlap where nothing fails both delete, each
    behind the same durable announcement.
   */
  method DeleteTwice(world: CloudWorld, first: Recorder, second: Recorder, payload: nat)
    requires SamePlace(first, second) && world.table == first.table && first.table.calm && world.calm && first.Exact()
    requires RECOVERY_ADMIN_DELETE_DISPATCHING !in first.phases
    modifies first, second, first.table, world
    ensures |world.calls| == |old(world.calls)| + 2 && old(world.calls) <= world.calls
    ensures forall k :: |old(world.calls)| <= k < |world.calls| ==> IsRecoveryAdminDelete(world.calls[k])
  {
    hide At, ControllerTable.Valid, Recorder.Exact, Recorder.Synced;
    var a, b := AnnounceTwice(first, second, RECOVERY_ADMIN_DELETE_DISPATCHING, payload, payload);
    first.PhasesAreDurable();
    SyncedParts(first);
    assert RECOVERY_ADMIN_DELETE_DISPATCHING in world.table.Durable();
    var deleted := world.DeleteAdmin();
    deleted := world.DeleteAdmin();
  }
}
