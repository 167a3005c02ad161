/**
  How far a live run can fall behind the durable chain, when no two attempts wrote the same consumption record;
  and the run that shows what goes wrong when they did.
 */
module FreshPrimaryLag {
  import opened Options
  import opened FreshPrimaryJournal
  import opened FreshPrimaryController
  import opened FreshPrimaryProtocol
  import opened FreshPrimarySafety
  import opened FreshPrimaryTheorems

  /** Only a run that dispatched can have made a journal longer. */
  ghost predicate Owned(w: World) {
    forall key :: key in w.table && Decode(w.table[key]).transitions != [] ==> HasOwner(w, key)
  }

  ghost predicate HasOwner(w: World, key: Digest) {
    exists q :: q in w.runs && w.runs[q].dispatched && w.runs[q].command.globalKeySha256 == key
  }

  /** A journal holds no more transitions than a run that dispatched over it has sent. */
  ghost predicate Lags(w: World) {
    forall p :: p in w.runs ==> LagsAt(w.runs[p], JournalAt(w, w.runs[p].command.globalKeySha256))
  }

  ghost predicate LagsAt(r: Run, o: Option<Journal>) {
    r.dispatched && o.Some? ==> |o.value.transitions| <= r.issued
  }

  lemma DistinctBefore(w: World, w': World)
    requires Progress(w, w') && DistinctAttempts(w')
    ensures DistinctAttempts(w)
  {
    forall p, q | p in w.runs && q in w.runs && p != q && w.runs[p].attempt.Some? && w.runs[p].announced.Some?
      ensures w.runs[p].attempt != w.runs[q].attempt || w.runs[p].announced != w.runs[q].announced
    {
      assert Advances(w.runs[p], w'.runs[p]) && Advances(w.runs[q], w'.runs[q]);
      assert w'.runs[p].attempt != w'.runs[q].attempt || w'.runs[p].announced != w'.runs[q].announced;
    }
  }

  lemma OwnerRemains(w: World, w': World, key: Digest)
    requires Progress(w, w') && HasOwner(w, key)
    ensures HasOwner(w', key)
  {
    var q :| q in w.runs && w.runs[q].dispatched && w.runs[q].command.globalKeySha256 == key;
    assert Advances(w.runs[q], w'.runs[q]);
  }

  /** Distinct attempts never dispatch over one key. */
  lemma OneDispatcher(w: World, p: nat, q: nat)
    requires Inv(w) && DistinctAttempts(w) && p in w.runs && q in w.runs
    requires w.runs[p].dispatched && w.runs[q].dispatched
    requires w.runs[p].command.globalKeySha256 == w.runs[q].command.globalKeySha256
    ensures p == q
  {
    DispatchersShare(w, p, q);
  }

  /** A run step moves no journal; a run that starts to dispatch finds no journal that another one made longer. */
  lemma RunStepKeepsLag(w: World, w': World)
    requires Owned(w) && Lags(w) && Progress(w, w') && Inv(w') && w'.table == w.table && DistinctAttempts(w')
    ensures Owned(w') && Lags(w')
  {
    hide JournalAt, Inv, HasOwner, DistinctAttempts, Progress;
    forall key | key in w'.table && Decode(w'.table[key]).transitions != [] ensures HasOwner(w', key) {
      OwnerRemains(w, w', key);
    }
    forall p | p in w'.runs ensures LagsAt(w'.runs[p], JournalAt(w', w'.runs[p].command.globalKeySha256)) {
      AdvancedRunLags(w, w', p);
    }
  }

  lemma AdvancedRunLags(w: World, w': World, p: nat)
    requires Owned(w) && Lags(w) && Progress(w, w') && Inv(w') && w'.table == w.table && DistinctAttempts(w')
    requires p in w'.runs
    ensures LagsAt(w'.runs[p], JournalAt(w', w'.runs[p].command.globalKeySha256))
  {
    hide Inv, DistinctAttempts;
    var r, r' := w.runs[p], w'.runs[p];
    assert Advances(r, r') && LagsAt(r, JournalAt(w, r.command.globalKeySha256));
    var key := r.command.globalKeySha256;
    if key in w.table && Decode(w.table[key]).transitions != [] && r'.dispatched {
      var q :| q in w.runs && w.runs[q].dispatched && w.runs[q].command.globalKeySha256 == key;
      assert Advances(w.runs[q], w'.runs[q]);
      OneDispatcher(w', p, q);
    }
  }

  /** A landing transition was sent by the one run that dispatched, which has counted it. */
  lemma LandKeepsLag(w: World, m: Message)
    requires Inv(w) && Owned(w) && Lags(w) && DistinctAttempts(w) && m in w.sent
    ensures Owned(Step(w, Land(m))) && Lags(Step(w, Land(m)))
  {
    hide Inv, Updated, Condition, RunOk, Contains, Grows, ItemOk, DistinctAttempts;
    var key := KeyOf(m.write);
    var w' := Step(w, Land(m));
    if Condition(m.write, At(w.table, key)) {
      LandedJournal(w, m);
      var j' := Decode(w'.table[key]);
      forall k | k in w'.table && Decode(w'.table[k]).transitions != [] ensures HasOwner(w', k) {
        if k == key && m.write.AppendTransition? {
          assert w'.runs[m.run].dispatched;
        } else {
          assert HasOwner(w, k);
        }
      }
      forall p | p in w'.runs ensures LagsAt(w'.runs[p], JournalAt(w', w'.runs[p].command.globalKeySha256)) {
        var r := w.runs[p];
        assert LagsAt(r, JournalAt(w, r.command.globalKeySha256));
        if r.command.globalKeySha256 == key && r.dispatched && m.write.AppendTransition? {
          OneDispatcher(w, p, m.run);
        }
      }
    }
  }

  lemma LandedJournal(w: World, m: Message)
    requires Inv(w) && m in w.sent && Condition(m.write, At(w.table, KeyOf(m.write)))
    ensures m.run in w.runs && w.runs[m.run].command.globalKeySha256 == KeyOf(m.write)
    ensures var key := KeyOf(m.write); var j' := Decode(Updated(m.write, At(w.table, key)));
      && (m.write.ConsumeOnce? ==> j'.transitions == [])
      && (!m.write.ConsumeOnce? && !m.write.AppendTransition? ==>
            key in w.table && j'.transitions == Decode(w.table[key]).transitions)
      && (m.write.AppendTransition? ==>
            w.runs[m.run].dispatched && |j'.transitions| <= w.runs[m.run].issued)
  {
    hide RunOk, EffectOk, Updated, Condition;
    var key := KeyOf(m.write);
    LandingExtends(w, m);
    InvAt(w, m.run);
    SentInv(w, m);
    if m.write.ConsumeOnce? {
      ConsumedDecodes(m, w);
    } else {
      OwnerOfTransition(w, m);
    }
  }

  lemma ConsumedDecodes(m: Message, w: World)
    requires m.write.ConsumeOnce? && Condition(m.write, At(w.table, KeyOf(m.write)))
    ensures Decode(Updated(m.write, At(w.table, KeyOf(m.write)))) == Consumed(m.write.command, m.write.consumption)
  {
    DecodeEncode(Consumed(m.write.command, m.write.consumption));
  }

  lemma OwnerOfTransition(w: World, m: Message)
    requires Inv(w) && m in w.sent && !m.write.ConsumeOnce? && KeyOf(m.write) in w.table
    requires Condition(m.write, At(w.table, KeyOf(m.write)))
    ensures m.write.AppendTransition? ==>
              && m.run in w.runs && w.runs[m.run].dispatched
              && |Decode(w.table[KeyOf(m.write)]).transitions| < w.runs[m.run].issued
  {
    var key := KeyOf(m.write);
    DecodeOk(w.table[key], key);
    var j := Decode(w.table[key]);
    SentInv(w, m);
    InvAt(w, m.run);
    ConditionIsCompareLastReceipt(j, FullRequest(j.command), m.write);
    SameCommand(j, m.write);
  }

  lemma {:induction false} RunsKeepLag(w: World, events: seq<Event>)
    requires Inv(w) && Owned(w) && Lags(w) && Feasible(w, events) && DistinctAttempts(After(w, events))
    ensures Owned(After(w, events)) && Lags(After(w, events))
    decreases |events|
  {
    hide Inv, Step, Enabled, Owned, Lags, DistinctAttempts, Progress;
    if events != [] {
      var w1 := Step(w, events[0]);
      EventKeepsInv(w, events[0]);
      RunsKeepInv(w1, events[1..]);
      DistinctBefore(w1, After(w1, events[1..]));
      if events[0].Land? {
        DistinctBefore(w, w1);
        LandEnabled(w, events[0]);
        LandKeepsLag(w, events[0].message);
      } else {
        OnlyLandingMovesTheTable(w, events[0]);
        RunStepKeepsLag(w, w1);
      }
      RunsKeepLag(w1, events[1..]);
    }
  }

  lemma LandEnabled(w: World, e: Event)
    requires e.Land? && Enabled(w, e)
    ensures e.message in w.sent
  {
  }

  lemma OnlyLandingMovesTheTable(w: World, e: Event)
    requires Enabled(w, e) && !e.Land?
    ensures Step(w, e).table == w.table
  {
    hide Condition, Updated, Recoverable, Acceptable, BOOTSTRAP;
  }

  /**
    With distinct attempts a dispatching run knows the durable chain exactly; while one transition is in flight it
    lags by at most that one. Either way its view is an exact prefix.
   */
  lemma ViewLagsByAtMostOne(w: World, p: nat)
    requires Reachable(w) && DistinctAttempts(w) && p in w.runs
    requires w.runs[p].pc.Dispatching? || w.runs[p].pc.Recording?
    ensures w.runs[p].command.globalKeySha256 in w.table
    ensures var j := Decode(w.table[w.runs[p].command.globalKeySha256]); var v := w.runs[p].pc.view;
      && v.sequence <= |j.transitions| && v.previous == Tail(j, v.sequence) && j.intent == Some(v.intent)
      && (w.runs[p].pc.Dispatching? ==> |j.transitions| == v.sequence)
      && (w.runs[p].pc.Recording? ==> |j.transitions| <= v.sequence + 1)
  {
    hide Reachable, Feasible, After, Inv, JournalOk;
    ReachableInv(w);
    ReachableLags(w);
    InvAt(w, p);
    assert LagsAt(w.runs[p], JournalAt(w, w.runs[p].command.globalKeySha256));
  }

  lemma ReachableLags(w: World)
    requires Reachable(w) && DistinctAttempts(w)
    ensures Owned(w) && Lags(w)
  {
    hide Inv, DistinctAttempts;
    var start, events :| Init(start) && Feasible(start, events) && After(start, events) == w;
    InitInv(start);
    RunsKeepLag(start, events);
  }

  // ----- Why distinct attempts are needed -----------------------------------------------------

  lemma {:induction false} AfterAppend(w: World, events: seq<Event>, e: Event)
    requires Feasible(w, events) && Enabled(After(w, events), e)
    ensures Feasible(w, events + [e]) && After(w, events + [e]) == Step(After(w, events), e)
    decreases |events|
  {
    hide Enabled, Step;
    if events == [] {
      assert [e][1..] == [];
      assert Feasible(Step(w, e), []);
    } else {
      assert (events + [e])[1..] == events[1..] + [e];
      AfterAppend(Step(w, events[0]), events[1..], e);
    }
  }

  lemma ReachableStep(w: World, e: Event)
    requires Reachable(w) && Enabled(w, e)
    ensures Reachable(Step(w, e))
  {
    hide Enabled, Step, Init;
    var start, events :| Init(start) && Feasible(start, events) && After(start, events) == w;
    AfterAppend(start, events, e);
  }

  /** Two runs of one command that consumed in the same millisecond. */
  function Twins(c: Command): World {
    World(map[], {}, {},
          map[0 := Run(c, None, None, false, false, 0, Begin), 1 := Run(c, None, None, false, false, 0, Begin)], {})
  }

  function TwinConsumption(c: Command, now: int): Record {
    Consumption(BindingOf(c), c.coordinates.approvalId, now, 1)
  }

  function TwinIntent(c: Command, a: nat, now: int): Record {
    Intent(BindingOf(c), Sha256(TwinConsumption(c, now)), a, 2)
  }

  /** Both runs find the item absent and send the identical put. */
  lemma TwinsAttempt(c: Command, a: nat, now: int) returns (w: World)
    requires ValidCommand(c)
    ensures Reachable(w)
    ensures var k := TwinConsumption(c, now); var r := Run(c, Some(k), None, false, false, 0, Consuming(k, a, false));
      w == World(map[], {Message(0, ConsumeOnce(c, k)), Message(1, ConsumeOnce(c, k))}, {}, map[0 := r, 1 := r], {})
  {
    hide Acceptable, Recoverable, BOOTSTRAP;
    w := Twins(c);
    assert Feasible(w, []) && After(w, []) == w;
    assert Reachable(w);
    ReachableStep(w, ReadStrong(0, true)); w := Step(w, ReadStrong(0, true));
    ReachableStep(w, ReadStrong(1, true)); w := Step(w, ReadStrong(1, true));
    ReachableStep(w, Authenticate(0, a, now)); w := Step(w, Authenticate(0, a, now));
    ReachableStep(w, Authenticate(1, a, now)); w := Step(w, Authenticate(1, a, now));
  }

  /** A run that holds its consumption and has sent its intent. */
  function TwinIntending(c: Command, a: nat, now: int): Run {
    var i := TwinIntent(c, a, now);
    Run(c, Some(TwinConsumption(c, now)), Some(i), true, false, 0, Intending(i, false))
  }

  /** One put lands and its sender is acknowledged. */
  lemma TwinsLand(c: Command, a: nat, now: int) returns (w: World)
    requires ValidCommand(c)
    ensures Reachable(w) && w.runs.Keys == {0, 1} && w.runs[0] == TwinIntending(c, a, now)
    ensures w.runs[1] == Run(c, Some(TwinConsumption(c, now)), None, false, false, 0,
                             Consuming(TwinConsumption(c, now), a, false))
    ensures w.table == map[c.globalKeySha256 := Encode(Consumed(c, TwinConsumption(c, now)))]
    ensures Message(0, AppendIntent(c, TwinIntent(c, a, now))) in w.sent
  {
    hide Acceptable, Recoverable, BOOTSTRAP, Reachable;
    var k := TwinConsumption(c, now);
    w := TwinsAttempt(c, a, now);
    ReachableStep(w, Land(Message(0, ConsumeOnce(c, k)))); w := Step(w, Land(Message(0, ConsumeOnce(c, k))));
    assert w.table == map[c.globalKeySha256 := Encode(Consumed(c, k))];
    ReachableStep(w, Acknowledge(0)); w := Step(w, Acknowledge(0));
  }

  /** Its twin sees an error and then reads back the identical record. */
  lemma TwinsConsume(c: Command, a: nat, now: int) returns (w: World)
    requires ValidCommand(c)
    ensures Reachable(w) && w.runs.Keys == {0, 1}
    ensures w.runs[0] == w.runs[1] == TwinIntending(c, a, now)
    ensures w.table == map[c.globalKeySha256 := Encode(Consumed(c, TwinConsumption(c, now)))]
    ensures Message(0, AppendIntent(c, TwinIntent(c, a, now))) in w.sent
  {
    hide Acceptable, Recoverable, BOOTSTRAP, Reachable;
    w := TwinsLand(c, a, now);
    ReachableStep(w, CallFails(1)); w := Step(w, CallFails(1));
    TwinItemAccepted(Consumed(c, TwinConsumption(c, now)), c);
    ReachableStep(w, ReadBack(1, true, now)); w := Step(w, ReadBack(1, true, now));
  }

  lemma TwinItemAccepted(j: Journal, c: Command)
    requires Chained(j, FullRequest(c)) && j.transitions == []
    ensures Acceptable(Encode(j), FullRequest(c)) && Decode(Encode(j)) == j
  {
    DecodeEncode(j);
    assert Stores(Encode(j), j, FullRequest(c));
  }

  /**
    For every valid command, millisecond and authentication: two attempts that wrote this one consumption and this
    one intent can both dispatch. So differing in one of the two records is exactly what one shot needs.
   */
  lemma IdenticalAttemptsBothDispatch(c: Command, a: nat, now: int) returns (w: World)
    requires ValidCommand(c)
    ensures Reachable(w) && 0 in w.runs && 1 in w.runs
    ensures w.runs[0].command == w.runs[1].command == c && w.runs[0].dispatched && w.runs[1].dispatched
    ensures w.runs[0].attempt == w.runs[1].attempt == Some(TwinConsumption(c, now))
    ensures w.runs[0].announced == w.runs[1].announced == Some(TwinIntent(c, a, now))
  {
    hide Acceptable, Recoverable, BOOTSTRAP, Reachable;
    w := TwinsConsume(c, a, now);
    var k, i := TwinConsumption(c, now), TwinIntent(c, a, now);
    var m := Message(0, AppendIntent(c, i));
    ReachableStep(w, Land(m)); w := Step(w, Land(m));
    assert Chained(Consumed(c, k), FullRequest(c));
    var j := Extend(Consumed(c, k), m.write);
    assert w.table[c.globalKeySha256] == Encode(j);
    ReachableStep(w, Acknowledge(0)); w := Step(w, Acknowledge(0));
    ReachableStep(w, CallFails(1)); w := Step(w, CallFails(1));
    TwinItemAccepted(j, c);
    ReachableStep(w, ReadBack(1, true, now)); w := Step(w, ReadBack(1, true, now));
  }
}
