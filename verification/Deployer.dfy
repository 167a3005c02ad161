/**
  The change-set deployer: creates one CloudFormation stack through one change set and turns its termination
  protection on. CloudFormation may show any state at any poll and may fail any call, whether or not it took effect.
 */
module Deployer {
  import opened Options
  import opened Results

  type Digest = nat

  datatype StackStatus = REVIEW_IN_PROGRESS | CREATE_IN_PROGRESS | CREATE_COMPLETE | OtherStackStatus(name: nat)

  /** `named` stands for the stack's name and the form of its identifier. */
  datatype Stack = Stack(stackId: nat, named: bool, role: nat, parameters: nat, status: StackStatus,
                         protection: Option<bool>)

  datatype ChangeSetStatus =
    | ChangeSetPending | ChangeSetInProgress | ChangeSetComplete | OtherChangeSetStatus(name: nat)

  datatype Execution = AVAILABLE | EXECUTE_IN_PROGRESS | EXECUTE_COMPLETE | OtherExecution(name: nat)

  /** `exact` stands for its name, stack, type CREATE, description, capability and the absence of nested stacks. */
  datatype ChangeSet = ChangeSet(changeSetId: Option<nat>, exact: bool, role: nat, parameters: nat,
                                 status: ChangeSetStatus, execution: Execution)

  /** How a change set is named in later calls. */
  datatype Reference = ById(id: nat) | ByName

  function ReferenceOf(c: ChangeSet): Reference {
    if c.changeSetId.Some? then ById(c.changeSetId.value) else ByName
  }

  /** What the deployment intent demands. */
  datatype Coordinates = Coordinates(role: nat, parameters: nat, template: Digest)

  datatype Event =
    | SawStack(stack: Option<Stack>)
    | SawStackTemplate(stackId: nat, template: Digest)
    | SawChangeSet(changeSet: Option<ChangeSet>)
    | SawChangeSetTemplate(reference: Reference, template: Digest)
    | SentCreate
    | SentExecute(executed: Reference)
    | SentProtect(protected: nat)
    | CallFailed

  /** What the service would answer to each kind of call, and whether it would acknowledge a mutation. */
  datatype Answer = Answer(stack: Result<Option<Stack>>, changeSet: Result<Option<ChangeSet>>,
                           template: Result<Digest>, acknowledged: bool)

  predicate StackFits(s: Stack, c: Coordinates) {
    s.named && s.role == c.role && s.parameters == c.parameters
  }

  predicate ChangeSetFits(s: ChangeSet, c: Coordinates) {
    && s.exact && s.role == c.role && s.parameters == c.parameters && s.status.ChangeSetComplete?
    && (s.execution.AVAILABLE? || s.execution.EXECUTE_IN_PROGRESS? || s.execution.EXECUTE_COMPLETE?)
  }

  predicate Underway(s: Stack) {
    s.status.CREATE_IN_PROGRESS? || s.status.CREATE_COMPLETE?
  }

  /** At position i a stack was observed and then, with its own template, found to be the intended one. */
  ghost predicate ValidatedStackAt(log: seq<Event>, i: int, s: Stack, c: Coordinates) {
    && 0 <= i < |log| - 1 && log[i] == SawStack(Some(s)) && StackFits(s, c)
    && log[i + 1] == SawStackTemplate(s.stackId, c.template)
  }

  predicate Protected(log: seq<Event>) {
    exists k :: 0 <= k < |log| && log[k].SentProtect?
  }

  /** What must immediately precede each mutation. */
  ghost predicate Justified(log: seq<Event>, i: nat, c: Coordinates)
    requires i < |log|
  {
    match log[i]
    case SentCreate =>
      && i >= 2 && log[i - 2] == SawStack(None) && log[i - 1] == SawChangeSet(None)
      && forall k :: 0 <= k < i ==> log[k] != SentCreate
    case SentExecute(reference) =>
      && i >= 3
      && (log[i - 3] == SawStack(None) ||
          (log[i - 3].SawStack? && log[i - 3].stack.Some? && log[i - 3].stack.value.status.REVIEW_IN_PROGRESS?))
      && log[i - 2].SawChangeSet? && log[i - 2].changeSet.Some?
      && ChangeSetFits(log[i - 2].changeSet.value, c) && log[i - 2].changeSet.value.execution.AVAILABLE?
      && ReferenceOf(log[i - 2].changeSet.value) == reference
      && log[i - 1] == SawChangeSetTemplate(reference, c.template)
    case SentProtect(stackId) =>
      && i >= 2
      && log[i - 2].SawStack? && log[i - 2].stack.Some?
      && ValidatedStackAt(log, i - 2, log[i - 2].stack.value, c)
      && log[i - 2].stack.value.stackId == stackId && log[i - 2].stack.value.status.CREATE_COMPLETE?
      && log[i - 2].stack.value.protection == Some(false)
      && forall k :: 0 <= k < i ==> !log[k].SentProtect?
    case _ => true
  }

  ghost predicate Lawful(log: seq<Event>, c: Coordinates) {
    forall i: nat :: i < |log| ==> Justified(log, i, c)
  }

  ghost predicate IsMutation(e: Event) {
    e.SentCreate? || e.SentExecute? || e.SentProtect?
  }

  /** An event shows what the service answered. */
  predicate Shows(e: Event, a: Answer) {
    match e
    case SawStack(s) => a.stack == Done(s)
    case SawChangeSet(s) => a.changeSet == Done(s)
    case SawStackTemplate(_, template) => a.template == Done(template)
    case SawChangeSetTemplate(_, template) => a.template == Done(template)
    case CallFailed => a.stack.Threw? || a.changeSet.Threw? || a.template.Threw?
    case _ => true
  }

  ghost predicate Faithful(log: seq<Event>, answers: seq<Event> -> Answer) {
    forall k: nat :: k < |log| ==> ShowsAt(log, k, answers)
  }

  ghost predicate ShowsAt(log: seq<Event>, k: nat, answers: seq<Event> -> Answer)
    requires k < |log|
  {
    Shows(log[k], answers(log[..k]))
  }

  lemma LawfulAppend(log: seq<Event>, c: Coordinates, e: Event)
    requires Lawful(log, c)
    requires IsMutation(e) ==> Justified(log + [e], |log|, c)
    ensures Lawful(log + [e], c)
  {
    var longer := log + [e];
    forall i: nat | i < |longer| ensures Justified(longer, i, c) {
      if i < |log| {
        assert Justified(log, i, c);
        assert forall k :: 0 <= k <= i ==> longer[k] == log[k];
      }
    }
  }

  lemma FaithfulAppend(log: seq<Event>, answers: seq<Event> -> Answer, e: Event)
    requires Faithful(log, answers) && Shows(e, answers(log))
    ensures Faithful(log + [e], answers)
  {
    var longer := log + [e];
    forall k: nat | k < |longer| ensures ShowsAt(longer, k, answers) {
      assert longer[..k] == log[..k];
      assert log[..|log|] == log;
      assert k < |log| ==> ShowsAt(log, k, answers);
    }
  }

  /** The last thing seen explains why a deployment cannot go on. */
  ghost predicate Stuck(log: seq<Event>, c: Coordinates) {
    log != [] &&
    match log[|log| - 1]
    case CallFailed => true
    case SawStack(s) => s.None? || !StackFits(s.value, c) || (!Underway(s.value) && !Protected(log))
    case SawChangeSet(s) => s.None? || !ChangeSetFits(s.value, c)
    case SawChangeSetTemplate(_, template) => template != c.template
    case SawStackTemplate(_, template) =>
      template != c.template ||
      (|log| >= 2 && log[|log| - 2].SawStack? && log[|log| - 2].stack.Some? &&
          Unusable(log, log[|log| - 2].stack.value))
    case _ => false
  }

  /**
    A validated stack, seen last, that ends a deployment: never complete, of unknown protection, or protected in
    vain.
   */
  ghost predicate Unusable(log: seq<Event>, s: Stack) {
    || (!s.status.CREATE_COMPLETE? && !Protected(log)) || s.protection.None?
    || (s.protection == Some(false) && Protected(log))
  }

  /** From position n on: a stack that may still be created, and the intended change set, available and validated. */
  ghost predicate ReadyToExecute(log: seq<Event>, n: nat, c: Coordinates)
    requires |log| >= n + 3
  {
    && log[n + 1].SawChangeSet? && log[n + 1].changeSet.Some?
    && ChangeSetFits(log[n + 1].changeSet.value, c) && log[n + 1].changeSet.value.execution.AVAILABLE?
    && log[n + 2] == SawChangeSetTemplate(ReferenceOf(log[n + 1].changeSet.value), c.template)
  }

  /** No stack was protected, and none whose template was read was complete. */
  ghost predicate Early(log: seq<Event>) {
    forall k: nat :: k < |log| ==> !log[k].SentProtect? && !CompleteAt(log, k)
  }

  /** At position k the template of a complete stack was read. */
  ghost predicate CompleteAt(log: seq<Event>, k: nat)
    requires k < |log|
  {
    && log[k].SawStackTemplate? && k > 0 && log[k - 1].SawStack? && log[k - 1].stack.Some?
    && log[k - 1].stack.value.status.CREATE_COMPLETE?
  }

  lemma EarlyAppend(log: seq<Event>, e: Event)
    requires Early(log) && !e.SentProtect?
    requires e.SawStackTemplate? && log != [] && log[|log| - 1].SawStack? && log[|log| - 1].stack.Some? ==>
               !log[|log| - 1].stack.value.status.CREATE_COMPLETE?
    ensures Early(log + [e])
  {
    var longer := log + [e];
    forall k: nat | k < |longer| ensures !longer[k].SentProtect? && !CompleteAt(longer, k) {
      assert k < |log| ==> !log[k].SentProtect? && !CompleteAt(log, k);
    }
  }

  // ----- CloudFormation ---------------------------------------------------------------------------

  class CloudFormation {
    /** The service answers according to everything it was asked before. */
    const answers: seq<Event> -> Answer
    const coordinates: Coordinates
    var log: seq<Event>

    constructor (c: Coordinates, a: seq<Event> -> Answer)
      ensures Valid() && coordinates == c && answers == a && log == []
    {
      coordinates, answers, log := c, a, [];
    }

    ghost predicate Valid()
      reads this
    {
      Lawful(log, coordinates) && Faithful(log, answers)
    }

    method Note(e: Event)
      requires Valid() && Shows(e, answers(log)) && (IsMutation(e) ==> Justified(log + [e], |log|, coordinates))
      modifies this`log
      ensures Valid() && log == old(log) + [e]
    {
      LawfulAppend(log, coordinates, e);
      FaithfulAppend(log, answers, e);
      log := log + [e];
    }

    method DescribeStack() returns (o: Result<Option<Stack>>)
      requires Valid()
      modifies this`log
      ensures Valid() && o == answers(old(log)).stack
      ensures log == old(log) + [if o.Done? then SawStack(o.value) else CallFailed]
      ensures old(Early(log)) ==> Early(log)
      ensures !Protected(old(log)) ==> !Protected(log)
    {
      o := answers(log).stack;
      ghost var e := if o.Done? then SawStack(o.value) else CallFailed;
      if Early(log) {
        EarlyAppend(log, e);
      }
      Note(if o.Done? then SawStack(o.value) else CallFailed);
    }

    method DescribeChangeSet() returns (o: Result<Option<ChangeSet>>)
      requires Valid()
      modifies this`log
      ensures Valid() && o == answers(old(log)).changeSet
      ensures log == old(log) + [if o.Done? then SawChangeSet(o.value) else CallFailed]
      ensures old(Early(log)) ==> Early(log)
    {
      o := answers(log).changeSet;
      ghost var e := if o.Done? then SawChangeSet(o.value) else CallFailed;
      if Early(log) {
        EarlyAppend(log, e);
      }
      Note(if o.Done? then SawChangeSet(o.value) else CallFailed);
    }

    /** `validateStack` of a stack just described. */
    method ValidateStack(stack: Option<Stack>) returns (o: Result<Stack>)
      requires Valid() && log != [] && log[|log| - 1] == SawStack(stack)
      modifies this`log
      ensures Valid() && old(log) <= log && |log| <= |old(log)| + 1
      ensures o.Done? ==> stack == Some(o.value) && |log| == |old(log)| + 1
      ensures o.Done? ==> ValidatedStackAt(log, |log| - 2, o.value, coordinates)
      ensures forall k :: |old(log)| <= k < |log| ==> !IsMutation(log[k])
      ensures o.Threw? ==>
                (log == old(log) && (stack.None? || !StackFits(stack.value, coordinates))) ||
                (|log| == |old(log)| + 1 && Stuck(log, coordinates))
      ensures old(Early(log)) && (stack.None? || !stack.value.status.CREATE_COMPLETE?) ==> Early(log)
    {
      if stack.None? || !StackFits(stack.value, coordinates) {
        return Threw;
      }
      var template := answers(log).template;
      ghost var e := if template.Done? then SawStackTemplate(stack.value.stackId, template.value) else CallFailed;
      if Early(log) && !stack.value.status.CREATE_COMPLETE? {
        EarlyAppend(log, e);
      }
      Note(if template.Done? then SawStackTemplate(stack.value.stackId, template.value) else CallFailed);
      if template != Done(coordinates.template) {
        return Threw;
      }
      return Done(stack.value);
    }

    /** `validateChangeSet` of a change set just described. */
    method ValidateChangeSet(changeSet: ChangeSet) returns (o: Result<ChangeSet>)
      requires Valid()
      modifies this`log
      ensures Valid() && old(log) <= log && |log| <= |old(log)| + 1
      ensures o.Done? ==> o.value == changeSet && ChangeSetFits(changeSet, coordinates)
      ensures o.Done? ==> log == old(log) + [SawChangeSetTemplate(ReferenceOf(changeSet), coordinates.template)]
      ensures forall k :: |old(log)| <= k < |log| ==> !IsMutation(log[k])
      ensures o.Threw? ==>
                (log == old(log) && !ChangeSetFits(changeSet, coordinates)) ||
                (|log| == |old(log)| + 1 && Stuck(log, coordinates))
      ensures old(Early(log)) ==> Early(log)
    {
      if !ChangeSetFits(changeSet, coordinates) {
        return Threw;
      }
      var template := answers(log).template;
      ghost var reference := ReferenceOf(changeSet);
      ghost var e := if template.Done? then SawChangeSetTemplate(reference, template.value) else CallFailed;
      if Early(log) {
        EarlyAppend(log, e);
      }
      Note(if template.Done? then SawChangeSetTemplate(ReferenceOf(changeSet), template.value) else CallFailed);
      if template != Done(coordinates.template) {
        return Threw;
      }
      return Done(changeSet);
    }

    method SendCreate() returns (acknowledged: bool)
      requires Valid() && Early(log) && |log| >= 2
      requires log[|log| - 2] == SawStack(None) && log[|log| - 1] == SawChangeSet(None)
      requires forall k :: 0 <= k < |log| ==> !IsMutation(log[k])
      modifies this`log
      ensures Valid() && Early(log) && log == old(log) + [SentCreate]
      ensures acknowledged == answers(old(log)).acknowledged
    {
      EarlyAppend(log, SentCreate);
      acknowledged := answers(log).acknowledged;
      Note(SentCreate);
    }

    method SendExecute(changeSet: ChangeSet) returns (acknowledged: bool)
      requires Valid() && Early(log) && |log| >= 3
      requires ChangeSetFits(changeSet, coordinates) && changeSet.execution.AVAILABLE?
      requires log[|log| - 3] == SawStack(None) ||
               (log[|log| - 3].SawStack? && log[|log| - 3].stack.Some? &&
                   log[|log| - 3].stack.value.status.REVIEW_IN_PROGRESS?)
      requires log[|log| - 2] == SawChangeSet(Some(changeSet))
      requires log[|log| - 1] == SawChangeSetTemplate(ReferenceOf(changeSet), coordinates.template)
      modifies this`log
      ensures Valid() && Early(log) && log == old(log) + [SentExecute(ReferenceOf(changeSet))]
      ensures acknowledged == answers(old(log)).acknowledged
    {
      EarlyAppend(log, SentExecute(ReferenceOf(changeSet)));
      acknowledged := answers(log).acknowledged;
      Note(SentExecute(ReferenceOf(changeSet)));
    }

    method SendProtect(stack: Stack) returns (acknowledged: bool)
      requires Valid() && |log| >= 2 && ValidatedStackAt(log, |log| - 2, stack, coordinates)
      requires stack.status.CREATE_COMPLETE? && stack.protection == Some(false) && !Protected(log)
      modifies this`log
      ensures Valid() && log == old(log) + [SentProtect(stack.stackId)]
      ensures acknowledged == answers(old(log)).acknowledged
    {
      acknowledged := answers(log).acknowledged;
      Note(SentProtect(stack.stackId));
    }

    /** Before the first poll: create the change set if neither it nor the stack is there. */
    method EnsureChangeSet() returns (o: Result<()>)
      requires Valid() && log == []
      modifies this`log
      ensures Valid() && Early(log)
      ensures forall k :: 0 <= k < |log| ==> !log[k].SentExecute?
      ensures |log| >= 2 && log[0] == SawStack(None) && log[1] == SawChangeSet(None) ==>
                |log| > 2 && log[2] == SentCreate
      ensures o.Threw? ==> Stuck(log, coordinates)
    {
      hide Early, Lawful, Faithful;
      assert Early(log) by { NothingYet(); }
      var stack :- DescribeStack();
      if stack.None? {
        var changeSet :- DescribeChangeSet();
        if changeSet.None? {
          var acknowledged := SendCreate();
          if !acknowledged {
            var observed :- DescribeChangeSet();
            if observed.None? {
              return Threw;
            }
          }
        }
      }
      return Done(());
    }

    lemma NothingYet()
      ensures log == [] ==> Early(log)
    {
    }

    lemma EarlyIsUnprotected()
      requires Early(log)
      ensures !Protected(log)
    {
    }

    /** One poll for the stack: done when it is underway. Only a change set validated in this very poll is executed. */
    method PollOnce() returns (o: Result<bool>)
      requires Valid() && Early(log)
      modifies this`log
      ensures Valid() && old(log) <= log && Early(log)
      ensures o.Done? ==> (o.value <==> |log| == |old(log)| + 1)
      ensures |log| >= |old(log)| + 3 && ReadyToExecute(log, |old(log)|, coordinates) ==>
                |log| > |old(log)| + 3 &&
                    log[|old(log)| + 3] == SentExecute(ReferenceOf(log[|old(log)| + 1].changeSet.value))
      ensures o.Threw? ==> Stuck(log, coordinates)
    {
      hide Early, Lawful, Faithful, Protected;
      EarlyIsUnprotected();
      var stack :- DescribeStack();
      EarlyIsUnprotected();
      if stack.Some? && Underway(stack.value) {
        return Done(true);
      }
      if stack.Some? && !stack.value.status.REVIEW_IN_PROGRESS? {
        return Threw;
      }
      var changeSet :- DescribeChangeSet();
      if changeSet.None? || changeSet.value.status.ChangeSetPending? || changeSet.value.status.ChangeSetInProgress? {
        return Done(false);
      }
      var validated :- ValidateChangeSet(changeSet.value);
      if validated.execution.AVAILABLE? {
        var acknowledged := SendExecute(validated);
        if !acknowledged {
          var observed :- DescribeStack();
          EarlyIsUnprotected();
          if observed.None? || !Underway(observed.value) {
            return Threw;
          }
        }
      }
      return Done(false);
    }

    /** The first polling loop and the look that follows it. */
    method AwaitStack(maximumPollAttempts: nat) returns (o: Result<()>)
      requires Valid() && Early(log)
      modifies this`log
      ensures Valid() && old(log) <= log && Early(log)
      ensures o.Threw? ==> Stuck(log, coordinates)
    {
      hide Early, Lawful, Faithful, Protected;
      var attempt := 0;
      while attempt < maximumPollAttempts
        invariant Valid() && old(log) <= log && Early(log)
      {
        var underway :- PollOnce();
        if underway {
          break;
        }
        attempt := attempt + 1;
      }
      var stack :- DescribeStack();
      EarlyIsUnprotected();
      return if stack.Some? && Underway(stack.value) then Done(()) else Threw;
    }

    /** The second polling loop: every look at the stack is validated, until it is complete. */
    method AwaitCompletion(maximumPollAttempts: nat) returns (o: Result<Stack>)
      requires Valid() && Early(log)
      modifies this`log
      ensures Valid() && old(log) <= log && !Protected(log)
      ensures o.Done? ==> |log| >= 2 && Early(log[..|log| - 1])
      ensures o.Done? ==> ValidatedStackAt(log, |log| - 2, o.value, coordinates) && o.value.status.CREATE_COMPLETE?
      ensures o.Threw? ==> maximumPollAttempts == 0 || Stuck(log, coordinates)
    {
      hide Early, Lawful, Faithful, Protected;
      EarlyIsUnprotected();
      var attempt := 0;
      while attempt < maximumPollAttempts
        invariant Valid() && old(log) <= log && Early(log)
        invariant attempt > 0 ==> Stuck(log, coordinates)
      {
        var described := DescribeStack();
        EarlyIsUnprotected();
        if described.Threw? || described.value.None? || !Underway(described.value.value) {
          return Threw;
        }
        ghost var before := log;
        var stack := ValidateStack(described.value);
        StillUnprotected(before);
        if stack.Threw? {
          return Threw;
        }
        assert log[..|log| - 1] == before;
        if stack.value.status.CREATE_COMPLETE? {
          return Done(stack.value);
        }
        attempt := attempt + 1;
      }
      EarlyIsUnprotected();
      return Threw;
    }

    lemma StillUnprotected(before: seq<Event>)
      requires !Protected(before) && before <= log && forall k :: |before| <= k < |log| ==> !IsMutation(log[k])
      ensures !Protected(log)
    {
      forall k | 0 <= k < |log| ensures !log[k].SentProtect? {
        assert k < |before| ==> before[k] == log[k];
      }
    }

    lemma StillProtected(before: seq<Event>)
      requires Protected(before) && before <= log
      ensures Protected(log)
    {
      var k :| 0 <= k < |before| && before[k].SentProtect?;
      assert log[k] == before[k];
    }

    /** `reconcileProtection`: turned on already, or asked for once and then observed on a validated stack. */
    method ReconcileProtection(stack: Stack) returns (o: Result<Stack>)
      requires Valid() && |log| >= 2 && ValidatedStackAt(log, |log| - 2, stack, coordinates)
      requires stack.status.CREATE_COMPLETE? && !Protected(log)
      modifies this`log
      ensures Valid() && old(log) <= log
      ensures o.Done? ==> ValidatedStackAt(log, |log| - 2, o.value, coordinates) && o.value.protection == Some(true)
      ensures stack.protection == Some(true) ==> o == Done(stack) && log == old(log)
      ensures o.Done? && stack.protection != Some(true) ==> |log| == |old(log)| + 3
      ensures o.Threw? ==> Stuck(log, coordinates)
      ensures stack.protection == Some(false) ==> |log| > |old(log)| && log[|old(log)|] == SentProtect(stack.stackId)
      ensures stack.protection == None ==> o.Threw? && log == old(log)
    {
      hide Lawful, Faithful, Early;
      OnOffUnknown(stack.protection);
      if stack.protection == Some(true) {
        return Done(stack);
      }
      if stack.protection != Some(false) {
        return Threw;
      }
      var acknowledged := SendProtect(stack);
      assert Protected(log) by { assert log[|log| - 1].SentProtect?; }
      ghost var requested := log;
      var observed := DescribeStack();
      StillProtected(requested);
      if observed.Threw? {
        return Threw;
      }
      var validated := ValidateStack(observed.value);
      StillProtected(requested);
      if validated.Threw? {
        return Threw;
      }
      OnOffUnknown(validated.value.protection);
      return if validated.value.protection == Some(true) then validated else Threw;
    }

    /**
      `deployPrivateRecoveryQuery`. A receipt means that the intended stack was observed complete and that an
      intended stack was last observed with its protection on: the same observation if it already showed that, or
      the one right after the single request to protect. It throws only where the last thing seen explains it.
     */
    method Deploy(maximumPollAttempts: int) returns (o: Result<Receipt>)
      requires Valid() && log == []
      modifies this`log
      ensures Valid()
      ensures !(1 <= maximumPollAttempts <= 120) ==> o.Threw? && log == []
      ensures o.Done? ==> exists completed, observed ::
                Deployed(log, completed, observed, coordinates) && o.value == Receipt(observed.stackId)
      ensures o.Threw? && 1 <= maximumPollAttempts <= 120 ==> Stuck(log, coordinates)
    {
      hide Lawful, Faithful, Early, Stuck;
      if !(1 <= maximumPollAttempts <= 120) {
        return Threw;
      }
      var _ :- EnsureChangeSet();
      var _ :- AwaitStack(maximumPollAttempts);
      var completed :- AwaitCompletion(maximumPollAttempts);
      ghost var i := |log| - 2;
      ghost var seen := log;
      var observed :- ReconcileProtection(completed);
      assert log[..i + 1] == seen[..i + 1];
      assert log[i] == seen[i] && log[i + 1] == seen[i + 1];
      OnOffUnknown(completed.protection);
      assert Deployed(log, completed, observed, coordinates);
      return Done(Receipt(observed.stackId));
    }
  }

  lemma OnOffUnknown(protection: Option<bool>)
    ensures protection == None || protection == Some(true) || protection == Some(false)
  {
    if protection.Some? {
      assert if protection.value then protection == Some(true) else protection == Some(false);
    }
  }

  datatype Receipt = Receipt(stackId: nat)

  /**
    How a deployment ends. The first complete stack whose template was read is the completed one. If it showed its
    protection on, it is the one named; if it showed it off, exactly one request, one look and one template follow.
   */
  ghost predicate Deployed(log: seq<Event>, completed: Stack, observed: Stack, c: Coordinates) {
    var i := if completed.protection == Some(true) then |log| - 2 else |log| - 5;
    && 0 <= i && Early(log[..i + 1])
    && ValidatedStackAt(log, i, completed, c) && completed.status.CREATE_COMPLETE?
    && ValidatedStackAt(log, |log| - 2, observed, c) && observed.protection == Some(true)
    && (completed.protection == Some(true) ==> observed == completed)
    && (completed.protection != Some(true) ==>
          completed.protection == Some(false) && log[i + 2] == SentProtect(completed.stackId))
  }

  // ----- A receipt for a stack that was never seen complete ----------------------------------------

  /**
    A service that shows one complete unprotected stack until it is asked to protect it, and another one after that.
   */
  function Replacing(completed: Stack, other: Stack, c: Coordinates, history: seq<Event>): Answer {
    Answer(Done(Some(if Protected(history) then other else completed)),
           Done(Some(ChangeSet(None, true, c.role, c.parameters, ChangeSetComplete, EXECUTE_COMPLETE))),
           Done(c.template), true)
  }

  /** Under such a service nothing ever explains a failure. */
  lemma ReplacingIsNeverStuck(log: seq<Event>, completed: Stack, other: Stack, c: Coordinates, a: seq<Event> -> Answer)
    requires Faithful(log, a) && forall history :: a(history) == Replacing(completed, other, c, history)
    requires StackFits(completed, c) && completed.status.CREATE_COMPLETE? && completed.protection == Some(false)
    requires StackFits(other, c) && other.protection == Some(true)
    ensures !Stuck(log, c)
  {
    if log != [] {
      assert ShowsAt(log, |log| - 1, a);
      LastEvents(log);
      if |log| >= 2 {
        assert ShowsAt(log, |log| - 2, a);
      }
    }
  }

  /** A look and the reading of a template protect nothing. */
  lemma LastEvents(log: seq<Event>)
    requires log != []
    ensures log[|log| - 1].SawStack? ==> (Protected(log) <==> Protected(log[..|log| - 1]))
    ensures |log| >= 2 && log[|log| - 1].SawStackTemplate? && log[|log| - 2].SawStack? ==>
              (Protected(log) <==> Protected(log[..|log| - 2]))
  {
    forall n: nat | n <= |log| && (forall k :: n <= k < |log| ==> !log[k].SentProtect?)
      ensures Protected(log) <==> Protected(log[..n])
    {
      if Protected(log) {
        var k :| 0 <= k < |log| && log[k].SentProtect?;
        assert log[..n][k].SentProtect?;
      }
      if Protected(log[..n]) {
        var k :| 0 <= k < n && log[..n][k].SentProtect?;
        assert log[k].SentProtect?;
      }
    }
  }

  /** Under such a service the stack seen complete and the stack named are the two it shows. */
  lemma ReplacingNamesTheOther(log: seq<Event>, completed: Stack, other: Stack, seen: Stack, named: Stack,
                               c: Coordinates, a: seq<Event> -> Answer)
    requires Faithful(log, a) && forall history :: a(history) == Replacing(completed, other, c, history)
    requires completed.protection == Some(false)
    requires Deployed(log, seen, named, c)
    ensures seen == completed && named == other
  {
    var i := if seen.protection == Some(true) then |log| - 2 else |log| - 5;
    assert ShowsAt(log, i, a) && ShowsAt(log, |log| - 2, a);
    forall k: nat | k < i ensures !log[..i][k].SentProtect? {
      assert log[..i][k] == log[..i + 1][k];
    }
    if seen.protection != Some(true) {
      assert log[..|log| - 2][i + 2].SentProtect?;
    }
  }

  /**
    For every intended complete stack whose protection is off and every intended stack whose protection is on, of
    whatever identifier and status: some service makes the deployment see the first one complete and name the other.
   */
  method NamesAnotherStack(cf: CloudFormation, completed: Stack, other: Stack, maximumPollAttempts: int)
    returns (o: Result<Receipt>)
    requires cf.Valid() && cf.log == [] && 1 <= maximumPollAttempts <= 120
    requires forall history :: cf.answers(history) == Replacing(completed, other, cf.coordinates, history)
    requires StackFits(completed, cf.coordinates) && completed.status.CREATE_COMPLETE?
    requires completed.protection == Some(false)
    requires StackFits(other, cf.coordinates) && other.protection == Some(true)
    modifies cf`log
    ensures o == Done(Receipt(other.stackId)) && Deployed(cf.log, completed, other, cf.coordinates)
  {
    hide Stuck, Deployed;
    o := cf.Deploy(maximumPollAttempts);
    ReplacingIsNeverStuck(cf.log, completed, other, cf.coordinates, cf.answers);
    ghost var seen, named :| Deployed(cf.log, seen, named, cf.coordinates) && o.value == Receipt(named.stackId);
    ReplacingNamesTheOther(cf.log, completed, other, seen, named, cf.coordinates, cf.answers);
  }
}
