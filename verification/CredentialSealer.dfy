/**
  The credential sealer: seven secret containers, five of which must end up holding exactly one version with the
  planned value, two of which must stay empty. A put may take effect and still report an error, or take effect late.
 */
module CredentialSealer {
  import opened Results

  datatype Target = Auditor | CloudApi | Credential | Mcp | Publisher | Admin | Signer

  const WRITER_TARGETS: seq<Target> := [Auditor, CloudApi, Credential, Mcp, Publisher]
  const RUNTIME_TARGETS: seq<Target> := [Admin, Signer]

  type Secret = nat

  datatype Stage = AWSCURRENT | AWSPREVIOUS | OtherStage(name: nat)

  /** A client request token: a digest over the plan, the target, its ARN and the digest of the value. */
  datatype Token = VersionId(plan: nat, target: Target, value: Secret) | ForeignToken(name: nat)

  datatype Version = Version(stages: seq<Stage>, value: Secret)

  /** `described` stands for everything the description, the tags and the resource policy must say. */
  datatype Container = Container(described: bool, versions: map<Token, Version>)

  datatype Put = Put(target: Target, token: Token, value: Secret)

  /** The approval binds one expected value to each writer target. */
  datatype Plan = Plan(id: nat, expected: Target -> Secret)

  function PlannedPut(p: Plan, t: Target): Put {
    Put(t, VersionId(p.id, t, p.expected(t)), p.expected(t))
  }

  function Sealed(p: Plan, t: Target): map<Token, Version> {
    map[PlannedPut(p, t).token := Version([AWSCURRENT], p.expected(t))]
  }

  /** What the secrets service does with a put: a known token changes nothing, a new one becomes current. */
  function Landed(c: Container, put: Put): Container {
    if put.token in c.versions then c
    else
      var demoted := map k | k in c.versions :: Demoted(c.versions[k]);
      c.(versions := demoted[put.token := Version([AWSCURRENT], put.value)])
  }

  function Demoted(v: Version): Version {
    if AWSCURRENT in v.stages then Version([AWSPREVIOUS], v.value) else v
  }

  /** A container that does not contradict the plan: a runtime target is empty, a writer target empty or sealed. */
  predicate Fits(p: Plan, t: Target, c: Container)
  {
    c.described && (c.versions == map[] || (t in WRITER_TARGETS && c.versions == Sealed(p, t)))
  }

  lemma LandedFits(p: Plan, t: Target, c: Container)
    requires t in WRITER_TARGETS
    ensures Fits(p, t, c) ==> Landed(c, PlannedPut(p, t)) == c.(versions := Sealed(p, t))
    ensures Landed(Landed(c, PlannedPut(p, t)), PlannedPut(p, t)) == Landed(c, PlannedPut(p, t))
  {
  }

  datatype Receipt = Receipt(dispatchCount: map<Target, nat>)

  class SecretStore {
    const plan: Plan
    /** In a calm environment no call fails and every put takes effect at once. */
    const calm: bool
    var containers: map<Target, Container>
    /** Targets to which the planned put was ever sent: it may land at any later moment. */
    var sent: set<Target>
    ghost var puts: seq<Put>

    ghost predicate Valid()
      reads this
    {
      && (forall t :: t in containers)
      && (forall t :: t in sent ==> t in WRITER_TARGETS)
      && Logged()
      && (calm ==> forall t :: t in sent ==> PlannedPut(plan, t).token in containers[t].versions)
    }

    /** The log holds the planned puts of the targets put to, and no other put. */
    ghost predicate Logged()
      reads this
    {
      && (forall t :: t in sent ==> PlannedPut(plan, t) in puts)
      && forall put :: put in puts ==> put.target in sent && put == PlannedPut(plan, put.target)
    }

    constructor (p: Plan, quiet: bool, initial: map<Target, Container>)
      requires forall t :: t in initial
      ensures Valid() && plan == p && calm == quiet && containers == initial && sent == {} && puts == []
    {
      plan, calm, containers, sent, puts := p, quiet, initial, {}, [];
    }

    /** How the containers may have changed since: the planned puts already sent, and nothing else. */
    ghost predicate Drifted(before: map<Target, Container>, writes: set<Target>)
      reads this
    {
      && (forall t :: t in before && t in containers) && (forall t :: t in writes ==> t in WRITER_TARGETS)
      && forall t ::
           || containers[t] == before[t]
           || (t in writes && containers[t] == Landed(before[t], PlannedPut(plan, t)))
    }

    method Land(t: Target)
      requires Valid() && t in WRITER_TARGETS && t in sent
      modifies this`containers
      ensures Valid()
      ensures containers == old(containers)[t := Landed(old(containers[t]), PlannedPut(plan, t))]
    {
      containers := containers[t := Landed(containers[t], PlannedPut(plan, t))];
    }

    /** Puts sent earlier land, in any order and any number of times. */
    method Settle()
      requires Valid()
      modifies this`containers
      ensures Valid() && Drifted(old(containers), sent)
      ensures calm ==> containers == old(containers)
    {
      var deliveries: nat := *;
      while deliveries > 0
        invariant Valid() && Drifted(old(containers), sent)
        invariant calm ==> containers == old(containers)
      {
        if sent != {} {
          var t :| t in sent;
          Land(t);
        }
        deliveries := deliveries - 1;
      }
    }

    lemma DriftedTwice(a: map<Target, Container>, b: map<Target, Container>, before: set<Target>, after: set<Target>)
      requires Valid() && before <= after
      requires forall t :: t in a && t in b
      requires forall t :: t in before ==> t in WRITER_TARGETS
      requires forall t :: b[t] == a[t] || (t in before && b[t] == Landed(a[t], PlannedPut(plan, t)))
      requires Drifted(b, after)
      ensures Drifted(a, after)
    {
    }

    /** A container contradicts the plan after a drift exactly if it did before. */
    lemma DriftKeepsFit(before: map<Target, Container>, writes: set<Target>, t: Target)
      requires Drifted(before, writes)
      ensures Fits(plan, t, before[t]) <==> Fits(plan, t, containers[t])
      ensures before[t].versions != map[] ==> containers[t].versions != map[]
      ensures before[t].described == containers[t].described
      ensures t in WRITER_TARGETS && IsSealed(before[t], t) ==> containers[t] == before[t]
    {
      if containers[t] != before[t] {
        LandingKeepsFit(plan, t, before[t]);
      }
    }

    predicate IsSealed(c: Container, t: Target)
    {
      c.described && c.versions == Sealed(plan, t)
    }

    /** `inspect`: description and complete inventory, read separately, must agree; values are not part of either. */
    method Inspect(t: Target) returns (o: Result<map<Token, seq<Stage>>>)
      requires Valid()
      modifies this`containers
      ensures Valid() && Drifted(old(containers), sent) && (calm ==> containers == old(containers))
      ensures o.Done? ==> containers[t].described && o.value == StagesOf(containers[t].versions)
      ensures calm && containers[t].described ==> o.Done?
    {
      Settle();
      var description := containers[t];
      ghost var mid := containers;
      Settle();
      DriftedTwice(old(containers), mid, sent, sent);
      var fails: bool := *;
      if (fails && !calm) || !description.described ||
          StagesOf(description.versions) != StagesOf(containers[t].versions) {
        return Threw;
      }
      return Done(StagesOf(containers[t].versions));
    }

    /** `readExact`: the planned version, current, with the planned value. */
    method ReadExact(t: Target) returns (o: Result<()>)
      requires Valid() && t in WRITER_TARGETS
      modifies this`containers
      ensures Valid() && Drifted(old(containers), sent) && (calm ==> containers == old(containers))
      ensures o.Done? ==> HoldsPlanned(plan, t, containers[t])
      ensures calm && HoldsPlanned(plan, t, containers[t]) ==> o.Done?
    {
      Settle();
      var fails: bool := *;
      if (fails && !calm) || !HoldsPlanned(plan, t, containers[t]) {
        return Threw;
      }
      return Done(());
    }

    method PutSecretVersion(t: Target) returns (acknowledged: bool)
      requires Valid() && t in WRITER_TARGETS
      modifies this`containers, this`sent, this`puts
      ensures Valid() && sent == old(sent) + {t} && puts == old(puts) + [PlannedPut(plan, t)]
      ensures Drifted(old(containers), sent)
      ensures calm ==>
                acknowledged && containers == old(containers)[t := Landed(old(containers[t]), PlannedPut(plan, t))]
    {
      puts := puts + [PlannedPut(plan, t)];
      var processed: bool := *;
      if processed || calm {
        containers := containers[t := Landed(containers[t], PlannedPut(plan, t))];
      }
      sent := sent + {t};
      ghost var mid := containers;
      Settle();
      DriftedTwice(old(containers), mid, sent, sent);
      var heard: bool := *;
      return calm || (processed && heard);
    }

    ghost predicate AllFit(c: map<Target, Container>)
    {
      forall t :: t in c && Fits(plan, t, c[t])
    }

    /** A whole look at a writer target: inventory, then the value. */
    method VerifySealed(t: Target) returns (o: Result<()>)
      requires Valid() && t in WRITER_TARGETS
      modifies this`containers
      ensures Valid() && Drifted(old(containers), sent) && (calm ==> containers == old(containers))
      ensures o.Done? ==> IsSealed(containers[t], t)
      ensures calm ==> (o.Done? <==> IsSealed(containers[t], t))
    {
      var versions :- Inspect(t);
      hide Landed, Sealed, StagesOf, HoldsPlanned;
      ghost var seen := containers;
      SealedByReads(plan, t, containers[t]);
      if versions != map[PlannedPut(plan, t).token := [AWSCURRENT]] {
        return Threw;
      }
      o := ReadExact(t);
      SealedIsStable(seen, t);
      DriftedAgain(old(containers), seen, sent);
    }

    /** An exact read that follows an inventory proves the container sealed. */
    lemma SealedIsStable(seen: map<Target, Container>, t: Target)
      requires Valid() && t in WRITER_TARGETS && Drifted(seen, sent)
      requires seen[t].described
      requires StagesOf(seen[t].versions) == map[PlannedPut(plan, t).token := [AWSCURRENT]] || seen[t].versions == map[]
      ensures HoldsPlanned(plan, t, containers[t]) ==> IsSealed(containers[t], t)
      ensures HoldsPlanned(plan, t, containers[t]) && seen[t].versions != map[] ==> containers[t] == seen[t]
    {
      SealedByReads(plan, t, seen[t]);
      if seen[t].versions == map[] {
        LandedFits(plan, t, seen[t]);
      } else {
        assert PlannedPut(plan, t).token in StagesOf(seen[t].versions);
        assert PlannedPut(plan, t).token in seen[t].versions;
      }
    }

    lemma DriftedAgain(a: map<Target, Container>, b: map<Target, Container>, writes: set<Target>)
      requires Valid() && (forall t :: t in a && t in b) && (forall t :: t in writes ==> t in WRITER_TARGETS)
      requires forall t :: b[t] == a[t] || (t in writes && b[t] == Landed(a[t], PlannedPut(plan, t)))
      requires Drifted(b, writes)
      ensures Drifted(a, writes)
    {
      DriftedTwice(a, b, writes, writes);
    }

    /** The put into an empty container, and what follows it. */
    method Dispatch(t: Target) returns (o: Result<()>)
      requires Valid() && t in WRITER_TARGETS && containers[t].described && containers[t].versions == map[]
      modifies this`containers, this`sent, this`puts
      ensures Valid() && sent == old(sent) + {t} && Drifted(old(containers), sent)
      ensures puts == old(puts) + [PlannedPut(plan, t)]
      ensures o.Done? ==> IsSealed(containers[t], t)
      ensures calm ==> o.Done?
    {
      LandedFits(plan, t, containers[t]);
      var acknowledged := PutSecretVersion(t);
      hide Landed, Sealed, StagesOf, HoldsPlanned;
      ghost var afterPut := containers;
      if acknowledged {
        o := VerifySealed(t);
      } else {
        o := ReadExact(t);
      }
      DriftedAgain(old(containers), afterPut, sent);
      SealedIsStable(old(containers), t);
    }

    /** `convergeOne`: at most one put, and only into an empty container; on any doubt about it, one exact read. */
    method ConvergeOne(t: Target) returns (o: Result<nat>)
      requires Valid() && t in WRITER_TARGETS
      modifies this`containers, this`sent, this`puts
      ensures Valid() && old(sent) <= sent && Drifted(old(containers), sent)
      ensures puts == old(puts) || puts == old(puts) + [PlannedPut(plan, t)]
      ensures puts != old(puts) ==> old(containers[t]).described && old(containers[t]).versions == map[]
      ensures o.Done? ==> IsSealed(containers[t], t) && o.value == |puts| - |old(puts)|
      ensures calm ==> (o.Done? <==> Fits(plan, t, old(containers[t])))
    {
      var before :- Inspect(t);
      hide Landed, Sealed, StagesOf, HoldsPlanned;
      ghost var seen := containers;
      SealedByReads(plan, t, seen[t]);
      NoVersions(seen[t]);
      DriftKeepsFit(old(containers), sent, t);
      if before == map[PlannedPut(plan, t).token := [AWSCURRENT]] {
        var exact := ReadExact(t);
        SealedIsStable(seen, t);
        DriftedAgain(old(containers), seen, sent);
        return if exact.Done? then Done(0) else Threw;
      }
      if before != map[] {
        return Threw;
      }
      var put := Dispatch(t);
      DriftedTwice(old(containers), seen, old(sent), sent);
      return if put.Done? then Done(1) else Threw;
    }

    lemma DriftKeepsFits(before: map<Target, Container>, writes: set<Target>)
      requires Drifted(before, writes)
      ensures forall t :: Fits(plan, t, before[t]) <==> Fits(plan, t, containers[t])
    {
      forall t ensures Fits(plan, t, before[t]) <==> Fits(plan, t, containers[t]) {
        DriftKeepsFit(before, writes, t);
      }
    }

    method PreflightRuntime(t: Target) returns (o: Result<()>)
      requires Valid() && t !in WRITER_TARGETS
      modifies this`containers
      ensures Valid() && Drifted(old(containers), sent) && (calm ==> containers == old(containers))
      ensures o.Done? ==> Fits(plan, t, containers[t])
      ensures calm ==> (o.Done? <==> Fits(plan, t, containers[t]))
    {
      var versions :- Inspect(t);
      NoVersions(containers[t]);
      return if versions == map[] then Done(()) else Threw;
    }

    method PreflightWriter(t: Target) returns (o: Result<()>)
      requires Valid() && t in WRITER_TARGETS
      modifies this`containers
      ensures Valid() && Drifted(old(containers), sent) && (calm ==> containers == old(containers))
      ensures o.Done? ==> Fits(plan, t, containers[t])
      ensures calm ==> (o.Done? <==> Fits(plan, t, containers[t]))
    {
      var versions :- Inspect(t);
      hide Landed, Sealed, StagesOf, HoldsPlanned;
      ghost var seen := containers;
      NoVersions(seen[t]);
      SealedByReads(plan, t, seen[t]);
      if versions == map[] {
        return Done(());
      }
      if versions != map[PlannedPut(plan, t).token := [AWSCURRENT]] {
        return Threw;
      }
      o := ReadExact(t);
      SealedIsStable(seen, t);
      DriftedAgain(old(containers), seen, sent);
    }

    /** The loop over the two runtime targets, run before and after the puts. */
    method RequireRuntimeEmpty() returns (o: Result<()>)
      requires Valid()
      modifies this`containers
      ensures Valid() && Drifted(old(containers), sent) && (calm ==> containers == old(containers))
      ensures o.Done? ==> IsEmpty(containers[Admin]) && IsEmpty(containers[Signer])
      ensures calm ==> (o.Done? <==> IsEmpty(containers[Admin]) && IsEmpty(containers[Signer]))
    {
      hide Landed;
      for i := 0 to |RUNTIME_TARGETS|
        invariant Valid() && Drifted(old(containers), sent) && (calm ==> containers == old(containers))
        invariant forall k :: 0 <= k < i ==> IsEmpty(containers[RUNTIME_TARGETS[k]])
      {
        ghost var before := containers;
        var looked := PreflightRuntime(RUNTIME_TARGETS[i]);
        RuntimeStays(before, sent);
        DriftedAgain(old(containers), before, sent);
        if looked.Threw? {
          return Threw;
        }
      }
      assert IsEmpty(containers[RUNTIME_TARGETS[0]]) && IsEmpty(containers[RUNTIME_TARGETS[1]]);
      return Done(());
    }

    /** The complete preflight of all seven containers; it puts nothing. */
    method Preflight() returns (o: Result<()>)
      requires Valid()
      modifies this`containers
      ensures Valid() && Drifted(old(containers), sent) && (calm ==> containers == old(containers))
      ensures o.Done? ==> AllFit(containers)
      ensures calm ==> (o.Done? <==> AllFit(old(containers)))
    {
      hide Fits, Landed;
      var runtime := RequireRuntimeEmpty();
      if runtime.Threw? {
        if AllFit(old(containers)) {
          RuntimeFits(old(containers));
        }
        return Threw;
      }
      for i := 0 to |WRITER_TARGETS|
        invariant Valid() && Drifted(old(containers), sent) && (calm ==> containers == old(containers))
        invariant IsEmpty(containers[Admin]) && IsEmpty(containers[Signer])
        invariant forall k :: 0 <= k < i ==> Fits(plan, WRITER_TARGETS[k], containers[WRITER_TARGETS[k]])
      {
        ghost var before := containers;
        var looked := PreflightWriter(WRITER_TARGETS[i]);
        DriftKeepsFits(before, sent);
        RuntimeStays(before, sent);
        DriftedAgain(old(containers), before, sent);
        if looked.Threw? {
          return Threw;
        }
      }
      EveryTarget(containers);
      return Done(());
    }

    lemma RuntimeFits(c: map<Target, Container>)
      requires AllFit(c)
      ensures IsEmpty(c[Admin]) && IsEmpty(c[Signer])
    {
      assert Fits(plan, Admin, c[Admin]) && Fits(plan, Signer, c[Signer]);
    }

    lemma EveryTarget(c: map<Target, Container>)
      requires forall t :: t in c
      requires IsEmpty(c[Admin]) && IsEmpty(c[Signer])
      requires forall k :: 0 <= k < |WRITER_TARGETS| ==> Fits(plan, WRITER_TARGETS[k], c[WRITER_TARGETS[k]])
      ensures AllFit(c)
    {
      assert Fits(plan, Admin, c[Admin]) && Fits(plan, Signer, c[Signer]);
      hide Fits;
      assert WRITER_TARGETS[0] == Auditor && WRITER_TARGETS[1] == CloudApi && WRITER_TARGETS[2] == Credential;
      assert WRITER_TARGETS[3] == Mcp && WRITER_TARGETS[4] == Publisher;
      forall t ensures Fits(plan, t, c[t]) {
        match t {
          case Auditor => assert Fits(plan, WRITER_TARGETS[0], c[WRITER_TARGETS[0]]);
          case CloudApi => assert Fits(plan, WRITER_TARGETS[1], c[WRITER_TARGETS[1]]);
          case Credential => assert Fits(plan, WRITER_TARGETS[2], c[WRITER_TARGETS[2]]);
          case Mcp => assert Fits(plan, WRITER_TARGETS[3], c[WRITER_TARGETS[3]]);
          case Publisher => assert Fits(plan, WRITER_TARGETS[4], c[WRITER_TARGETS[4]]);
          case _ =>
        }
      }
    }

    /** The targets a call puts to: writer targets in order, none twice, each found described and empty. */
    ghost predicate Dispatchable(targets: seq<Target>, before: map<Target, Container>) {
      && (forall t :: t in targets ==>
            t in WRITER_TARGETS && t in before && before[t].described && before[t].versions == map[])
      && (forall i, k :: 0 <= i < k < |targets| ==> targets[i] != targets[k])
    }

    /** One step of the loop over the writer targets. */
    method ConvergeNext(t: Target, ghost before: map<Target, Container>, ghost dispatched: seq<Target>)
      returns (o: Result<nat>, ghost targets: seq<Target>)
      requires Valid() && t in WRITER_TARGETS && t !in dispatched
      requires Drifted(before, sent) && Dispatchable(dispatched, before) && Fits(plan, t, before[t])
      modifies this`containers, this`sent, this`puts
      ensures Valid() && old(sent) <= sent && Drifted(before, sent)
      ensures targets == dispatched || targets == dispatched + [t]
      ensures puts == old(puts) + (if targets == dispatched then [] else [PlannedPut(plan, t)])
      ensures Dispatchable(targets, before)
      ensures o.Done? ==> o.value == if targets == dispatched then 0 else 1
      ensures o.Done? ==> IsSealed(containers[t], t)
      ensures forall u :: u in WRITER_TARGETS && IsSealed(old(containers[u]), u) ==> IsSealed(containers[u], u)
      ensures calm ==> o.Done?
    {
      hide Fits, Landed, IsSealed, Sealed;
      ghost var middle, sent1, puts1 := containers, sent, puts;
      DriftKeepsFit(before, sent, t);
      o := ConvergeOne(t);
      SealedStays(middle, sent);
      DriftedTwice(before, middle, sent1, sent);
      targets := if puts == puts1 then dispatched else dispatched + [t];
    }

    method ConvergeAll() returns (o: Result<map<Target, nat>>, ghost targets: seq<Target>)
      requires Valid() && AllFit(containers)
      modifies this`containers, this`sent, this`puts
      ensures Valid() && old(sent) <= sent && Drifted(old(containers), sent)
      ensures Dispatchable(targets, old(containers)) && puts == old(puts) + PlannedPuts(plan, targets)
      ensures o.Done? ==>
                forall t :: t in WRITER_TARGETS ==> t in o.value && o.value[t] == if t in targets then 1 else 0
      ensures o.Done? ==> forall t :: t in WRITER_TARGETS ==> IsSealed(containers[t], t)
      ensures calm ==> o.Done?
    {
      hide Fits, Landed, IsSealed, Sealed, Dispatchable;
      DispatchableNone(old(containers));
      o, targets := Done(map[]), [];
      for i := 0 to |WRITER_TARGETS|
        invariant Valid() && old(sent) <= sent && Drifted(old(containers), sent) && o.Done?
        invariant Dispatchable(targets, old(containers)) && puts == old(puts) + PlannedPuts(plan, targets)
        invariant forall t :: t in targets ==> t in WRITER_TARGETS[..i]
        invariant forall t :: t in WRITER_TARGETS[..i] ==> IsSealed(containers[t], t)
        invariant forall t :: t in WRITER_TARGETS[..i] ==> t in o.value && o.value[t] == if t in targets then 1 else 0
      {
        var t := WRITER_TARGETS[i];
        FreshOrder(i);
        ghost var targets0 := targets;
        var next;
        next, targets := ConvergeNext(t, old(containers), targets);
        PlannedPutsAppend(plan, targets0, t);
        if next.Threw? {
          o := Threw;
          return;
        }
        o := Done(o.value[t := next.value]);
      }
    }

    /** The checks after the puts: two targets still empty, five sealed. */
    method VerifyAll() returns (o: Result<()>)
      requires Valid()
      modifies this`containers
      ensures Valid() && Drifted(old(containers), sent) && (calm ==> containers == old(containers))
      ensures o.Done? ==> AllSealed(containers)
      ensures calm ==> (o.Done? <==> AllSealed(containers))
    {
      hide Landed, Sealed, IsSealed;
      var runtime := RequireRuntimeEmpty();
      if runtime.Threw? {
        return Threw;
      }
      for i := 0 to |WRITER_TARGETS|
        invariant Valid() && Drifted(old(containers), sent) && (calm ==> containers == old(containers))
        invariant IsEmpty(containers[Admin]) && IsEmpty(containers[Signer])
        invariant forall k :: 0 <= k < i ==> IsSealed(containers[WRITER_TARGETS[k]], WRITER_TARGETS[k])
      {
        ghost var before := containers;
        var looked := VerifySealed(WRITER_TARGETS[i]);
        RuntimeStays(before, sent);
        SealedStays(before, sent);
        DriftedAgain(old(containers), before, sent);
        if looked.Threw? {
          assert WRITER_TARGETS[i] in WRITER_TARGETS;
          return Threw;
        }
      }
      return Done(());
    }

    predicate IsEmpty(c: Container) {
      c.described && c.versions == map[]
    }

    /** Exactly the planned version in the five writer targets, nothing in the two runtime ones. */
    ghost predicate AllSealed(c: map<Target, Container>)
    {
      && Admin in c && Signer in c && IsEmpty(c[Admin]) && IsEmpty(c[Signer])
      && (forall t :: t in WRITER_TARGETS ==> t in c && IsSealed(c[t], t))
    }

    lemma RuntimeStays(before: map<Target, Container>, writes: set<Target>)
      requires Drifted(before, writes)
      ensures forall t :: t in RUNTIME_TARGETS ==> containers[t] == before[t]
    {
    }

    lemma DispatchableNone(before: map<Target, Container>)
      ensures Dispatchable([], before)
    {
    }

    lemma DispatchableBefore(a: map<Target, Container>, b: map<Target, Container>, writes: set<Target>,
                            targets: seq<Target>)
      requires (forall t :: t in a && t in b) && (forall t :: t in writes ==> t in WRITER_TARGETS)
      requires forall t :: b[t] == a[t] || (t in writes && b[t] == Landed(a[t], PlannedPut(plan, t)))
      requires Dispatchable(targets, b)
      ensures Dispatchable(targets, a)
    {
      forall t | t in targets ensures a[t].described && a[t].versions == map[] {
        if b[t] != a[t] {
          LandingKeepsFit(plan, t, a[t]);
        }
      }
    }

    lemma SealedStays(before: map<Target, Container>, writes: set<Target>)
      requires Drifted(before, writes)
      ensures forall t :: t in WRITER_TARGETS && IsSealed(before[t], t) ==> containers[t] == before[t]
    {
      forall t | t in WRITER_TARGETS && IsSealed(before[t], t) ensures containers[t] == before[t] {
        DriftKeepsFit(before, writes, t);
      }
    }

    /** The material handed over: the approved values, the auditor's different from the cloud key. */
    predicate Accepted(values: Target -> Secret)
    {
      && (forall t :: t in WRITER_TARGETS ==> values(t) == plan.expected(t))
      && values(Auditor) != values(CloudApi)
    }

    /** The puts and the final checks, once the preflight found nothing wrong. */
    method ConvergeAndVerify() returns (o: Result<Receipt>, ghost targets: seq<Target>)
      requires Valid() && AllFit(containers)
      modifies this`containers, this`sent, this`puts
      ensures Valid() && old(sent) <= sent && Drifted(old(containers), sent)
      ensures Dispatchable(targets, old(containers)) && puts == old(puts) + PlannedPuts(plan, targets)
      ensures o.Done? ==> AllSealed(containers) && Counted(o.value, targets)
      ensures calm ==> o.Done?
    {
      RuntimeFits(containers);
      hide Fits, AllFit, Landed, Sealed, IsSealed, IsEmpty, Dispatchable;
      var counts;
      counts, targets := ConvergeAll();
      RuntimeStays(old(containers), sent);
      if counts.Threw? {
        return Threw, targets;
      }
      ghost var before := containers;
      var verified := VerifyAll();
      DriftedAgain(old(containers), before, sent);
      if verified.Threw? {
        return Threw, targets;
      }
      return Done(Receipt(counts.value)), targets;
    }

    ghost predicate Counted(r: Receipt, targets: seq<Target>) {
      forall t :: t in WRITER_TARGETS ==> t in r.dispatchCount && r.dispatchCount[t] == if t in targets then 1 else 0
    }

    /**
      `sealFreshPrimaryCredentialCustody`. A contradiction anywhere means no put at all; each target is put to at
      most once, and only if it was empty; a normal return means five sealed and two empty targets, and a receipt
      that counts exactly the puts made; where nothing fails, it returns normally exactly when no container
      contradicts the plan.
     */
    method SealCustody(values: Target -> Secret) returns (o: Result<Receipt>, ghost targets: seq<Target>)
      requires Valid()
      modifies this`containers, this`sent, this`puts
      ensures Valid() && old(sent) <= sent && Drifted(old(containers), sent)
      ensures !Accepted(values) || !AllFit(old(containers)) ==> o.Threw? && targets == []
      ensures Dispatchable(targets, old(containers)) && puts == old(puts) + PlannedPuts(plan, targets)
      ensures o.Done? ==> AllSealed(containers) && Counted(o.value, targets)
      ensures calm ==> (o.Done? <==> Accepted(values) && AllFit(old(containers)))
    {
      DispatchableNone(containers);
      if !Accepted(values) {
        return Threw, [];
      }
      var fits := Preflight();
      DriftKeepsFits(old(containers), sent);
      hide Fits, Landed, Sealed, IsSealed, Dispatchable, IsEmpty, Accepted, PlannedPut;
      if fits.Threw? {
        return Threw, [];
      }
      ghost var middle, sent1 := containers, sent;
      o, targets := ConvergeAndVerify();
      DispatchableBefore(old(containers), middle, sent1, targets);
      DriftedTwice(old(containers), middle, sent1, sent);
    }

    /** Sealing what is already sealed puts nothing, whatever fails, and leaves it sealed. */
    method SealAgain(values: Target -> Secret) returns (o: Result<Receipt>)
      requires Valid() && AllSealed(containers)
      modifies this`containers, this`sent, this`puts
      ensures Valid() && puts == old(puts) && sent == old(sent) && AllSealed(containers)
      ensures o.Done? ==> Counted(o.value, [])
      ensures calm ==> (o.Done? <==> Accepted(values))
    {
      hide Accepted, Counted, Fits;
      SealedIsFitting(containers);
      ghost var targets;
      o, targets := SealCustody(values);
      NothingDispatchable(targets, old(containers));
      SameLog(old(sent), old(puts));
      RuntimeStays(old(containers), sent);
      SealedStays(old(containers), sent);
    }

    /** The log says to which targets was put. */
    lemma SameLog(before: set<Target>, log: seq<Put>)
      requires Logged() && before <= sent && puts == log
      requires forall put :: put in log ==> put.target in before
      ensures sent == before
    {
      forall t | t in sent ensures t in before {
        assert PlannedPut(plan, t) in log;
      }
    }

    lemma NothingDispatchable(targets: seq<Target>, c: map<Target, Container>)
      requires Dispatchable(targets, c) && AllSealed(c) && forall t :: t in c
      ensures targets == []
    {
      HasMember(targets);
      SealedIsFitting(c);
    }

    lemma SealedIsFitting(c: map<Target, Container>)
      requires AllSealed(c) && forall t :: t in c
      ensures AllFit(c) && forall t :: t in WRITER_TARGETS ==> c[t].versions != map[]
    {
      forall t ensures Fits(plan, t, c[t]) {
        assert t == Admin || t == Signer || t in WRITER_TARGETS by { EveryName(t); }
      }
      forall t | t in WRITER_TARGETS ensures c[t].versions != map[] {
        assert PlannedPut(plan, t).token in Sealed(plan, t);
      }
    }
  }

  lemma HasMember(targets: seq<Target>)
    ensures targets == [] || exists t :: t in targets
  {
    if targets != [] {
      assert targets[0] in targets;
    }
  }

  lemma EveryName(t: Target)
    ensures t == Admin || t == Signer || t in WRITER_TARGETS
  {
    assert WRITER_TARGETS[0] == Auditor && WRITER_TARGETS[1] == CloudApi && WRITER_TARGETS[2] == Credential;
    assert WRITER_TARGETS[3] == Mcp && WRITER_TARGETS[4] == Publisher;
  }

  lemma FreshOrder(i: nat)
    requires i < |WRITER_TARGETS|
    ensures WRITER_TARGETS[i] !in WRITER_TARGETS[..i] &&
              WRITER_TARGETS[..i + 1] == WRITER_TARGETS[..i] + [WRITER_TARGETS[i]]
  {
  }

  function PlannedPuts(p: Plan, targets: seq<Target>): seq<Put> {
    seq(|targets|, i requires 0 <= i < |targets| => PlannedPut(p, targets[i]))
  }

  lemma PlannedPutsAppend(p: Plan, targets: seq<Target>, t: Target)
    ensures PlannedPuts(p, targets + [t]) == PlannedPuts(p, targets) + [PlannedPut(p, t)]
  {
  }

  lemma NoVersions(c: Container)
    ensures StagesOf(c.versions) == map[] <==> c.versions == map[]
  {
    assert forall k :: k in c.versions <==> k in StagesOf(c.versions);
  }

  /** What an inventory shows of the versions: their stages, not their values. */
  function StagesOf(versions: map<Token, Version>): map<Token, seq<Stage>> {
    map k | k in versions :: versions[k].stages
  }

  predicate HoldsPlanned(p: Plan, t: Target, c: Container)
    requires t in WRITER_TARGETS
  {
    var put := PlannedPut(p, t);
    put.token in c.versions && c.versions[put.token] == Version([AWSCURRENT], put.value)
  }

  lemma LandingKeepsFit(p: Plan, t: Target, c: Container)
    requires t in WRITER_TARGETS
    ensures Fits(p, t, c) <==> Fits(p, t, Landed(c, PlannedPut(p, t)))
    ensures Landed(c, PlannedPut(p, t)).versions != map[]
    ensures c.versions == Sealed(p, t) ==> Landed(c, PlannedPut(p, t)) == c
  {
    var put := PlannedPut(p, t);
    var d := Landed(c, put);
    assert put.token in d.versions;
    if put.token !in c.versions && c.versions != map[] {
      var k :| k in c.versions;
      assert k in d.versions && k !in Sealed(p, t);
    }
    if put.token !in c.versions && c.versions == map[] {
      assert d.versions == Sealed(p, t);
    }
  }

  /** The inventory test together with the exact read decide whether a container is sealed. */
  lemma SealedByReads(p: Plan, t: Target, c: Container)
    requires t in WRITER_TARGETS
    ensures c.versions == Sealed(p, t) <==>
            StagesOf(c.versions) == map[PlannedPut(p, t).token := [AWSCURRENT]] && HoldsPlanned(p, t, c)
  {
    var token := PlannedPut(p, t).token;
    if StagesOf(c.versions) == map[token := [AWSCURRENT]] {
      assert forall k :: k in c.versions <==> k in StagesOf(c.versions);
      assert forall k :: k in c.versions <==> k == token;
    }
  }
}
