/** Concrete runs of the system: where a guarantee stops, and that recovery really completes work. */
module Witnesses {
  import opened Basics
  import opened Workflow
  import opened Rows
  import opened Tables
  import opened Worker
  import opened Protocol
  import opened EventInvariant
  import opened Theorems
  import Text

  const NOTHING: Json := JOther("null")

  /** When the lease lifetime has a part below a millisecond, the first claim already gets a local
      deadline after the lease in the database. */
  lemma DeadlineCanOutliveLease(w: World, key: WorkflowKey, id: RunId) returns (states: seq<Sys>, labels: seq<Label>)
    requires IsId(id) && key in w.defs && w.ttl % MILLISECOND != 0
    ensures IsTrace(w, states, labels) && |labels| == 2
    ensures id in states[2].runs && 0 in states[2].claims && states[2].claims[0].run == id
    ensures states[2].runs[id].token == Some(0) && states[2].runs[id].leaseUntil.Some?
    ensures states[2].claims[0].deadline > states[2].runs[id].leaseUntil.value
  {
    var enqueue := Enqueue(id, key, "default", 1, None, 0, NOTHING, None);
    var claim := ClaimRun(id, 0, 0, 0, "default");
    var s0 := Init(0);
    var s1 := Apply(w, s0, enqueue);
    assert Inserts(s0, enqueue);
    var s2 := Apply(w, s1, claim);
    states, labels := [s0, s1, s2], [enqueue, claim];
  }

  /** No current claim's local deadline is later than the lease on its row. */
  ghost predicate WithinLease(s: Sys) {
    forall t :: t in s.claims && s.claims[t].run in s.runs && s.runs[s.claims[t].run].token == Some(t) ==>
      s.runs[s.claims[t].run].leaseUntil.Some? && s.claims[t].deadline <= s.runs[s.claims[t].run].leaseUntil.value
  }

  ghost predicate AlwaysWithinLease(w: World) {
    forall states: seq<Sys>, labels: seq<Label>, i: nat :: IsTrace(w, states, labels) && i <= |labels| ==> WithinLease(states[i])
  }

  /** The local deadline never outlives the database lease exactly when the lease lifetime is a
      whole number of milliseconds. */
  lemma ConservativeIffWholeMillis(w: World, key: WorkflowKey)
    requires WorldOk(w) && key in w.defs
    ensures AlwaysWithinLease(w) <==> w.ttl % MILLISECOND == 0
  {
    hide Enabled, Apply, WorldOk;
    if w.ttl % MILLISECOND == 0 {
      forall states: seq<Sys>, labels: seq<Label>, i: nat | IsTrace(w, states, labels) && i <= |labels|
        ensures WithinLease(states[i])
      {
        forall t | t in states[i].claims && states[i].claims[t].run in states[i].runs
                   && states[i].runs[states[i].claims[t].run].token == Some(t)
          ensures states[i].runs[states[i].claims[t].run].leaseUntil.Some?
               && states[i].claims[t].deadline <= states[i].runs[states[i].claims[t].run].leaseUntil.value
        {
          DeadlineConservative(w, states, labels, i, t);
        }
      }
    } else {
      var states, labels := DeadlineCanOutliveLease(w, key, "run");
      assert !WithinLease(states[2]);
    }
  }

  /** One step that may return anything. */
  const ONE_STEP: Definition := Definition("one", 1, [Step("only", (sc, v) => true)], map["only" := 0], 0)

  function OneStepWorld(): World {
    World(map[WorkflowKey("one", 1) := ONE_STEP], 1000 * MILLISECOND, EVENT_TTL, key => 0)
  }

  ghost predicate EndsIn(w: World, states: seq<Sys>, labels: seq<Label>, s: Sys) {
    IsTrace(w, states, labels) && states[|labels|] == s
  }

  /** A run of the system so far, as its last state. */
  ghost predicate Reached(w: World, s: Sys) {
    exists states: seq<Sys>, labels: seq<Label> :: EndsIn(w, states, labels, s)
  }

  lemma StartReached(w: World)
    ensures Reached(w, Init(0))
  {
    var states: seq<Sys>, labels: seq<Label> := [Init(0)], [];
    assert EndsIn(w, states, labels, Init(0));
  }

  lemma Extend(w: World, s: Sys, l: Label) returns (s': Sys)
    requires Reached(w, s) && Enabled(w, s, l)
    ensures Reached(w, s') && s' == Apply(w, s, l)
  {
    var states: seq<Sys>, labels: seq<Label> :| EndsIn(w, states, labels, s);
    hide Enabled, Apply;
    s' := Apply(w, s, l);
    var more, moreLabels := states + [s'], labels + [l];
    assert EndsIn(w, more, moreLabels, s');
  }

  lemma Moves(w: World, s: Sys, t: Token, m: Move) returns (s': Sys)
    requires Reached(w, s) && HasDef(w, s, t) && CanMove(DefFor(w, s, t), s.claims[t], m)
    ensures Reached(w, s') && s' == WithClaim(s, t, Moved(DefFor(w, s, t), s.claims[t], m, s.clock))
  {
    hide Reached, CanMove, Moved;
    s' := Extend(w, s, Local(t, m));
  }

  lemma Enqueued(id: RunId) returns (s: Sys)
    requires IsId(id)
    ensures Reached(OneStepWorld(), s) && s.clock == 0 && s.claims == map[]
    ensures s.runs == map[id := Inserted(WorkflowKey("one", 1), "default", 3, 0, NOTHING, None)]
  {
    hide Reached;
    var enqueue := Enqueue(id, WorkflowKey("one", 1), "default", 3, None, 0, NOTHING, None);
    assert Inserts(Init(0), enqueue);
    StartReached(OneStepWorld());
    s := Extend(OneStepWorld(), Init(0), enqueue);
  }

  lemma FirstClaim(id: RunId) returns (s: Sys)
    requires IsId(id)
    ensures Reached(OneStepWorld(), s) && s.clock == 0 && s.claims.Keys == {0}
    ensures id in s.runs && s.runs[id].workflow == WorkflowKey("one", 1) && s.runs[id].state.Leased? && s.runs[id].token == Some(0)
    ensures s.runs[id].leaseUntil == Some(1000 * MILLISECOND) && s.runs[id].cursor == 0 && s.runs[id].checkpoints == map[]
    ensures s.runs[id].leaseFailures == 0 && s.runs[id].maxAttempts == 3
    ensures s.claims[0].run == id && s.claims[0].phase.Driving? && s.claims[0].index == 0 && s.claims[0].values == [None]
  {
    hide Reached;
    s := Enqueued(id);
    s := Extend(OneStepWorld(), s, ClaimRun(id, 0, 0, 0, "default"));
  }

  /** The worker dies inside the step. */
  lemma DiesInStep(id: RunId) returns (s: Sys)
    requires IsId(id)
    ensures Reached(OneStepWorld(), s) && s.clock == 0 && s.claims.Keys == {0} && s.claims[0].phase.Done?
    ensures id in s.runs && s.runs[id].workflow == WorkflowKey("one", 1) && s.runs[id].state.Leased?
    ensures s.runs[id].leaseUntil == Some(1000 * MILLISECOND) && s.runs[id].cursor == 0 && s.runs[id].checkpoints == map[]
    ensures s.runs[id].leaseFailures == 0 && s.runs[id].maxAttempts == 3
  {
    hide Reached;
    s := FirstClaim(id);
    s := Extend(OneStepWorld(), s, Local(0, BeginOperation));
    assert s.claims[0].phase.InStep?;
    s := Extend(OneStepWorld(), s, Local(0, CrashClaim));
  }

  /** The lease runs out and is recovered, and the backoff passes. */
  lemma LeaseLost(id: RunId) returns (s: Sys)
    requires IsId(id)
    ensures Reached(OneStepWorld(), s) && s.clock == 3000 * MILLISECOND && s.claims.Keys == {0}
    ensures id in s.runs && s.runs[id].workflow == WorkflowKey("one", 1) && Claimable(s.runs[id], s.clock)
    ensures s.runs[id].cursor == 0 && s.runs[id].checkpoints == map[] && s.runs[id].leaseFailures == 1
  {
    hide Reached;
    s := DiesInStep(id);
    s := Extend(OneStepWorld(), s, Tick(2000 * MILLISECOND));
    s := Extend(OneStepWorld(), s, RecoverLeases({id}, 2000 * MILLISECOND));
    s := Extend(OneStepWorld(), s, Tick(3000 * MILLISECOND));
  }

  lemma SecondClaim(id: RunId) returns (s: Sys)
    requires IsId(id)
    ensures Reached(OneStepWorld(), s) && s.clock == 3000 * MILLISECOND && s.claims.Keys == {0, 1}
    ensures id in s.runs && s.runs[id].workflow == WorkflowKey("one", 1) && Fence(s.runs[id], 1, s.clock)
    ensures s.runs[id].cursor == 0 && s.runs[id].checkpoints == map[] && s.runs[id].leaseFailures == 1
    ensures s.claims[1].run == id && s.claims[1].phase.InStep? && s.claims[1].index == 0 && s.claims[1].values == [None]
  {
    hide Reached;
    s := LeaseLost(id);
    s := Extend(OneStepWorld(), s, ClaimRun(id, 1, s.clock, s.clock, s.runs[id].queue));
    s := Extend(OneStepWorld(), s, Local(1, BeginOperation));
  }

  /** A run whose worker died inside user code is recovered and completed by another claim, with the
      second claim's result as its output. */
  lemma RecoveryCompletes(id: RunId, value: Json) returns (s: Sys)
    requires IsId(id)
    ensures WorldOk(OneStepWorld()) && Reached(OneStepWorld(), s)
    ensures s.claims.Keys == {0, 1}
    ensures id in s.runs && s.runs[id].state.Completed? && s.runs[id].output == Some(value)
  {
    hide Reached;
    assert WellFormed(ONE_STEP);
    s := SecondClaim(id);
    s := Extend(OneStepWorld(), s, Local(1, StepReturns(value)));
    s := Extend(OneStepWorld(), s, Server(1, ExecDrive(s.clock)));
  }

  /* ---- a wait that misses an event alive when it began ---- */

  /** The engine's event lifetime, 24 hours, and the moment one millisecond before it is over. */
  const EVENT_TTL: nat := 86_400_000 * MILLISECOND

  const BEGIN: Time := EVENT_TTL - MILLISECOND

  /** One wait of a second. */
  const ONE_WAIT: Definition := Definition("wait", 1, [Wait("w", sc => Some("k"), 1000 * MILLISECOND)], map["w" := 0], 0)

  const LATE: Event := Event(0, "k", NOTHING, 0, EVENT_TTL)

  function OneWaitWorld(): World {
    World(map[WorkflowKey("wait", 1) := ONE_WAIT], 1000 * MILLISECOND, EVENT_TTL, key => 0)
  }

  /** An event is emitted. */
  lemma Emitted() returns (s: Sys)
    ensures Reached(OneWaitWorld(), s) && s == Init(0).(log := {LATE}, nextEvent := 1, emitted := [LATE])
  {
    hide Reached;
    var w := OneWaitWorld();
    StartReached(w);
    s := Extend(w, Init(0), Emitting(0, EmitBegin("k", NOTHING)));
    s := Extend(w, s, Emitting(0, EmitLock));
    s := Extend(w, s, EmitCommit(0));
    assert s.emits == map[] && s.log == {LATE} && s.runs == map[] && s.history == map[];
  }

  lemma WaitClaimed(id: RunId) returns (s: Sys)
    requires IsId(id)
    ensures Reached(OneWaitWorld(), s) && s.clock == BEGIN && s.log == {LATE} && s.emitted == [LATE] && s.pruned == {} && s.emits == map[]
    ensures s.runs.Keys == {id} && s.runs[id].workflow == WorkflowKey("wait", 1) && s.runs[id].checkpoints == map[]
    ensures s.runs[id].state.Leased? && s.runs[id].token == Some(0) && s.runs[id].leaseUntil == Some(BEGIN + 1000 * MILLISECOND)
    ensures s.claims.Keys == {0} && s.claims[0].run == id && s.claims[0].phase.Driving? && s.claims[0].index == 0
    ensures s.claims[0].values == [None] && s.history.Keys == {id}
  {
    hide Reached;
    s := Emitted();
    s := Extend(OneWaitWorld(), s, Tick(BEGIN));
    var enqueue := Enqueue(id, WorkflowKey("wait", 1), "default", 3, None, BEGIN, NOTHING, None);
    assert Inserts(s, enqueue);
    s := Extend(OneWaitWorld(), s, enqueue);
    s := Extend(OneWaitWorld(), s, ClaimRun(id, 0, BEGIN, BEGIN, "default"));
  }

  /** A run is claimed and begins its wait while the event is alive. */
  lemma WaitBegun(id: RunId) returns (s: Sys)
    requires IsId(id)
    ensures Reached(OneWaitWorld(), s) && s.clock == BEGIN && s.log == {LATE} && s.emitted == [LATE] && s.pruned == {} && s.emits == map[]
    ensures s.runs.Keys == {id} && s.runs[id].workflow == WorkflowKey("wait", 1) && s.runs[id].checkpoints == map[]
    ensures s.runs[id].state.Leased? && s.runs[id].token == Some(0) && s.runs[id].leaseUntil == Some(BEGIN + 1000 * MILLISECOND)
    ensures s.claims.Keys == {0} && s.claims[0].run == id
    ensures s.claims[0].tx == Some(WaitTx(0, "k", 1000 * MILLISECOND, true, BEGIN, Begun))
    ensures s.history.Keys == {id}
  {
    hide Reached;
    var w := OneWaitWorld();
    hide Resolve;
    s := WaitClaimed(id);
    s := Moves(w, s, 0, BeginOperation);
    KeyOfOneWait(s.claims[0].phase.sc);
    s := Moves(w, s, 0, OpenWait);
  }

  lemma KeyOfOneWait(sc: StepContext)
    ensures Resolve(ONE_WAIT.ops[0], sc) == Some("k")
  {
    hide Text.Trim;
    assert Text.IsTrimmed("k");
  }

  lemma WaitPruned(id: RunId) returns (s: Sys)
    requires IsId(id)
    ensures Reached(OneWaitWorld(), s) && s.clock == EVENT_TTL && s.log == {} && s.emitted == [LATE] && s.pruned == {LATE} && s.emits == map[]
    ensures s.runs.Keys == {id} && s.runs[id].workflow == WorkflowKey("wait", 1) && s.runs[id].checkpoints == map[]
    ensures s.runs[id].state.Leased? && s.runs[id].token == Some(0) && s.runs[id].leaseUntil == Some(BEGIN + 1000 * MILLISECOND)
    ensures s.claims.Keys == {0} && s.claims[0].run == id
    ensures s.claims[0].tx == Some(WaitTx(0, "k", 1000 * MILLISECOND, true, BEGIN, Begun))
    ensures s.history.Keys == {id}
  {
    hide Reached;
    s := WaitBegun(id);
    s := Extend(OneWaitWorld(), s, Tick(EVENT_TTL));
    s := Extend(OneWaitWorld(), s, Prune({LATE}, EVENT_TTL));
  }

  /** The event expires and is pruned before the wait gets its lock and looks. */
  lemma WaitParked(id: RunId) returns (s: Sys)
    requires IsId(id)
    ensures Reached(OneWaitWorld(), s) && s.clock == EVENT_TTL && s.emitted == [LATE]
    ensures s.runs.Keys == {id} && s.runs[id].workflow == WorkflowKey("wait", 1) && s.runs[id].checkpoints == map[]
    ensures s.runs[id].state.Waiting? && s.runs[id].waitDeadline == Some(BEGIN + 1000 * MILLISECOND)
    ensures s.history.Keys == {id} && s.runs[id].cursor in s.history[id].registrations && s.runs[id].cursor == 0
    ensures s.history[id].registrations[0] == Registration("k", BEGIN, BEGIN + 1000 * MILLISECOND, Look(EVENT_TTL, 1, {LATE}))
  {
    hide Reached;
    var w := OneWaitWorld();
    s := WaitPruned(id);
    s := Extend(w, s, Label.Waiting(0, WaitLock));
    s := Extend(w, s, Label.Waiting(0, WaitLookup(None)));
    s := Extend(w, s, Server(0, WaitSettle));
  }

  lemma WaitTimedOut(id: RunId) returns (s: Sys)
    requires IsId(id)
    ensures Reached(OneWaitWorld(), s) && s.emitted == [LATE]
    ensures id in s.runs && 0 in s.runs[id].checkpoints && s.runs[id].checkpoints[0] == TIMED_OUT
    ensures id in s.history && 0 in s.history[id].timeouts && s.history[id].timeouts[0].seen == 1
    ensures s.history[id].timeouts[0].registration == Registration("k", BEGIN, BEGIN + 1000 * MILLISECOND, Look(EVENT_TTL, 1, {LATE}))
  {
    hide Reached;
    s := WaitParked(id);
    s := Extend(OneWaitWorld(), s, Tick(BEGIN + 1000 * MILLISECOND));
    s := Extend(OneWaitWorld(), s, PromoteTimedOut({id}, BEGIN + 1000 * MILLISECOND, BEGIN + 1000 * MILLISECOND));
  }

  /** A wait can time out although an event that answers it was committed before it began and was alive
      when it began: the event, which lives for the engine's 24 hours, expired and was pruned before the wait looked. */
  lemma TimeoutCanMissAnAnswer(id: RunId) returns (s: Sys)
    requires IsId(id)
    ensures WorldOk(OneWaitWorld()) && Reached(OneWaitWorld(), s)
    ensures id in s.runs && 0 in s.runs[id].checkpoints && s.runs[id].checkpoints[0] == TIMED_OUT
    ensures id in s.history && 0 in s.history[id].timeouts
    ensures var t := s.history[id].timeouts[0];
            && t.seen <= |s.emitted| && LATE in s.emitted[..t.seen]
            && Answers(LATE, t.registration) && LATE.created <= t.registration.begin < LATE.expires
  {
    hide Reached;
    assert WellFormed(ONE_WAIT);
    s := WaitTimedOut(id);
    assert s.emitted[..1] == [LATE];
  }
}
