/** The guarantees of the engine, over every run of the system: any interleaving of workers,
    crashes, lost or late answers, expired leases, events, timeouts and cancellations. */
module Theorems {
  import opened Basics
  import opened Workflow
  import opened Rows
  import opened Tables
  import opened RunInvariant
  import opened Worker
  import opened ClaimInvariant
  import opened Protocol
  import opened CoreInvariant
  import opened LeaseInvariant
  import opened EventInvariant
  import opened EventSteps
  import opened EventHistory
  import opened SystemInvariant

  /* ---- replay ---- */

  lemma CompletedIsInterpreted(def: Definition, r: RunId, run: Run, results: (nat, StepContext) -> Json)
    requires WellFormed(def) && RunOk(def, r, run) && run.state.Completed? && Deterministic(def, results)
    ensures var values := Interpret(def, r, run.input, results, run.checkpoints, |def.ops|);
            && values == ValuesOf(run.checkpoints, |def.ops|)
            && run.output == InterpretedOutput(def, values)
  {
    forall p | 0 <= p < |def.ops| && def.ops[p].Step?
      ensures def.ops[p].may(ContextAt(def, r, run.input, run.checkpoints, p), run.checkpoints[p])
    {
      assert JustifiedAt(def, r, run.input, run.checkpoints, p);
    }
    JustifiedIsInterpreted(def, r, run.input, results, run.checkpoints, |def.ops|);
  }

  /** A completed run holds exactly what one uninterrupted left-to-right execution computes
      from the input and the recorded wait outcomes. */
  lemma ReplayEquivalence(w: World, states: seq<Sys>, labels: seq<Label>, i: nat, r: RunId, results: (nat, StepContext) -> Json)
    requires WorldOk(w) && IsTrace(w, states, labels) && i <= |labels|
    requires r in states[i].runs && states[i].runs[r].state.Completed? && states[i].runs[r].workflow in w.defs
    requires Deterministic(w.defs[states[i].runs[r].workflow], results)
    ensures var run := states[i].runs[r];
            var def := w.defs[run.workflow];
            && WellFormed(def)
            && var values := Interpret(def, r, run.input, results, run.checkpoints, |def.ops|);
               && values == ValuesOf(run.checkpoints, |def.ops|)
               && run.output == InterpretedOutput(def, values)
  {
    RowsAreOk(w, states, labels, i, r);
    CompletedIsInterpreted(w.defs[states[i].runs[r].workflow], r, states[i].runs[r], results);
  }

  lemma RowsAreOk(w: World, states: seq<Sys>, labels: seq<Label>, i: nat, r: RunId)
    requires WorldOk(w) && IsTrace(w, states, labels) && i <= |labels| && r in states[i].runs
    ensures states[i].runs[r].workflow in w.defs
    ensures WellFormed(w.defs[states[i].runs[r].workflow])
    ensures RunOk(w.defs[states[i].runs[r].workflow], r, states[i].runs[r])
  {
    hide Enabled, Apply;
    assert |states| == |labels| + 1;
    hide RunOk, LeaseOk, EventsOk, DedupOk, ClaimAt, TokenAt;
    Reachable(w, states, labels, i);
    assert RowOk(w, r, states[i].runs[r]);
  }

  /** Two completed runs with the same identity, input and wait outcomes agree on every result and on
      the output, whatever failures each of them went through. */
  lemma CompletedRunsAgree(w: World, a: seq<Sys>, la: seq<Label>, i: nat, b: seq<Sys>, lb: seq<Label>, j: nat, r: RunId,
                           results: (nat, StepContext) -> Json)
    requires WorldOk(w) && IsTrace(w, a, la) && i <= |la| && IsTrace(w, b, lb) && j <= |lb|
    requires r in a[i].runs && r in b[j].runs
    requires a[i].runs[r].workflow == b[j].runs[r].workflow && a[i].runs[r].input == b[j].runs[r].input
    requires a[i].runs[r].state.Completed? && b[j].runs[r].state.Completed?
    requires a[i].runs[r].workflow in w.defs && Deterministic(w.defs[a[i].runs[r].workflow], results)
    requires var ops := w.defs[a[i].runs[r].workflow].ops;
             forall p :: 0 <= p < |ops| && ops[p].Wait? && p in a[i].runs[r].checkpoints && p in b[j].runs[r].checkpoints ==>
               a[i].runs[r].checkpoints[p] == b[j].runs[r].checkpoints[p]
    ensures a[i].runs[r].checkpoints == b[j].runs[r].checkpoints
    ensures a[i].runs[r].output == b[j].runs[r].output
  {
    RowsAreOk(w, a, la, i, r);
    RowsAreOk(w, b, lb, j, r);
    hide RunOk, IsTrace, Deterministic, WellFormed;
    CompletedRowsAgree(w.defs[a[i].runs[r].workflow], r, a[i].runs[r], b[j].runs[r], results);
  }

  lemma CompletedRowsAgree(def: Definition, r: RunId, x: Run, y: Run, results: (nat, StepContext) -> Json)
    requires WellFormed(def) && RunOk(def, r, x) && RunOk(def, r, y) && Deterministic(def, results)
    requires x.state.Completed? && y.state.Completed? && x.input == y.input
    requires forall p :: 0 <= p < |def.ops| && def.ops[p].Wait? && p in x.checkpoints && p in y.checkpoints ==> x.checkpoints[p] == y.checkpoints[p]
    ensures x.checkpoints == y.checkpoints && x.output == y.output
  {
    CompletedIsInterpreted(def, r, x, results);
    CompletedIsInterpreted(def, r, y, results);
    hide Justified, WellFormed, FieldsOk, CountersOk, Deterministic, Interpret, JustifiedAt, ValuesOf;
    SameOutcomesSameInterpretation(def, r, x.input, results, x.checkpoints, y.checkpoints, |def.ops|);
    SameValuesSameCheckpoints(x.checkpoints, y.checkpoints, |def.ops|);
  }

  lemma SameValuesSameCheckpoints(a: map<nat, Json>, b: map<nat, Json>, n: nat)
    requires ValuesOf(a, n) == ValuesOf(b, n)
    requires (forall p :: p in a ==> p < n) && (forall p :: p in b ==> p < n)
    ensures a == b
  {
    forall p | p in a || p in b ensures p in a && p in b && a[p] == b[p] {
      assert ValuesOf(a, n)[p] == ValuesOf(b, n)[p];
    }
  }

  lemma {:induction false} SameOutcomesSameInterpretation(def: Definition, r: RunId, input: Json, results: (nat, StepContext) -> Json,
                                                          a: map<nat, Json>, b: map<nat, Json>, k: nat)
    requires k <= |def.ops|
    requires forall p :: 0 <= p < k && def.ops[p].Wait? ==> p in a && p in b && a[p] == b[p]
    ensures Interpret(def, r, input, results, a, k) == Interpret(def, r, input, results, b, k)
  {
    if k == 0 {
    } else {
      SameOutcomesSameInterpretation(def, r, input, results, a, b, k - 1);
    }
  }

  /* ---- contexts ---- */

  /** What a claim in user code sees is what the checkpoints of its run say, now and later. */
  lemma ContextIsStored(w: World, states: seq<Sys>, labels: seq<Label>, i: nat, j: nat, t: Token)
    requires WorldOk(w) && IsTrace(w, states, labels) && i <= j <= |labels|
    requires t in states[i].claims && InUserCode(states[i].claims[t])
    ensures var c := states[i].claims[t];
            && c.run in states[i].runs && c.run in states[j].runs
            && var run := states[j].runs[c.run];
               && run.workflow in w.defs
               && var def := w.defs[run.workflow];
                  && c.index < |def.ops| && Records(def.ops[c.index])
                  && c.phase.sc == ContextAt(def, c.run, run.input, run.checkpoints, c.index)
                  && (forall p :: 0 <= p < c.index && Records(def.ops[p]) ==> p in run.checkpoints)
                  && c.phase.sc.runId == c.run && c.phase.sc.workflow == run.workflow.name && c.phase.sc.input == run.input
                  && |c.phase.sc.values| == c.index
                  && (forall p :: 0 <= p < c.index ==>
                        c.phase.sc.values[p] == if p in run.checkpoints then Some(run.checkpoints[p]) else None)
  {
    hide Enabled, Apply;
    assert |states| == |labels| + 1;
    Reachable(w, states, labels, i);
    hide IsTrace, LeaseOk, EventsOk, DedupOk, Justified, CountersOk, OutputOk, CurrentOk, WorldOk;
    var c := states[i].claims[t];
    assert ClaimAt(w, states[i].runs, t, c);
    RowsLater(w, states, labels, i, j, c.run);
    RowsAreOk(w, states, labels, i, c.run);
    RowsAreOk(w, states, labels, j, c.run);
    var run, after := states[i].runs[c.run], states[j].runs[c.run];
    var def := w.defs[run.workflow];
    forall p | 0 <= p < c.index && Records(def.ops[p])
      ensures p in run.checkpoints
    {
      assert c.values[p].Some?;
    }
    ContextDependsBelow(def, c.run, run.input, run.checkpoints, after.checkpoints, c.index);
  }

  /** Every invocation of the operation at a position, by any worker on any attempt, even one whose
      lease is gone, gets the same context and the same idempotency key. */
  lemma ContextStability(w: World, states: seq<Sys>, labels: seq<Label>, i: nat, j: nat, t: Token, u: Token)
    requires WorldOk(w) && IsTrace(w, states, labels) && i <= j <= |labels|
    requires t in states[i].claims && InUserCode(states[i].claims[t])
    requires u in states[j].claims && InUserCode(states[j].claims[u])
    requires states[i].claims[t].run == states[j].claims[u].run && states[i].claims[t].index == states[j].claims[u].index
    ensures states[i].claims[t].phase.sc == states[j].claims[u].phase.sc
    ensures states[i].claims[t].phase.sc.IdempotencyKey() == states[j].claims[u].phase.sc.IdempotencyKey()
  {
    ContextIsStored(w, states, labels, i, j, t);
    ContextIsStored(w, states, labels, j, j, u);
  }

  /** In user code a name is readable exactly when it belongs to an earlier step or wait, and reads
      that operation's checkpoint; nothing at or above the position shows. */
  lemma ContextShowsExactlyEarlier(w: World, states: seq<Sys>, labels: seq<Label>, i: nat, t: Token, name: string)
    requires WorldOk(w) && IsTrace(w, states, labels) && i <= |labels|
    requires t in states[i].claims && InUserCode(states[i].claims[t])
    ensures var c := states[i].claims[t];
            && c.run in states[i].runs && states[i].runs[c.run].workflow in w.defs
            && var run := states[i].runs[c.run];
               var ops := w.defs[run.workflow].ops;
               var read := c.phase.sc.Raw(name);
               && c.index < |ops|
               && (read.Some? <==> exists p :: 0 <= p < c.index && Records(ops[p]) && ops[p].name == name)
               && (forall p :: 0 <= p < c.index && Records(ops[p]) && ops[p].name == name ==>
                     p in run.checkpoints && read == Some(run.checkpoints[p]))
  {
    ContextIsStored(w, states, labels, i, i, t);
    var c := states[i].claims[t];
    RowsAreOk(w, states, labels, i, c.run);
    hide IsTrace, WorldOk, RunOk;
    var run := states[i].runs[c.run];
    ContextReadsExactlyEarlier(w.defs[run.workflow], c.run, run.input, run.checkpoints, c.index, name);
  }

  lemma {:induction false} IdsAreIds(w: World, states: seq<Sys>, labels: seq<Label>, i: nat, r: RunId)
    requires WorldOk(w) && IsTrace(w, states, labels) && i <= |labels| && r in states[i].runs
    ensures IsId(r)
  {
    hide Enabled, Apply;
    assert |states| == |labels| + 1;
    if i == 0 {
    } else {
      Reachable(w, states, labels, i - 1);
      NewIds(w, states[i - 1], labels[i - 1], r);
      if r in states[i - 1].runs {
        IdsAreIds(w, states, labels, i - 1, r);
      }
    }
  }

  lemma NewIds(w: World, s: Sys, l: Label, r: RunId)
    requires SysOk(w, s) && Enabled(w, s, l) && r in Apply(w, s, l).runs
    ensures r in s.runs || IsId(r)
  {
    hide CoreOk, LeaseOk, EventsOk, DedupOk;
    if !l.Enqueue? {
      hide Apply, Enabled;
      KeysStep(w, s, l);
    }
  }

  /** Different runs or positions never share an idempotency key. */
  lemma IdempotencyKeysIdentify(w: World, states: seq<Sys>, labels: seq<Label>, i: nat, j: nat, t: Token, u: Token)
    requires WorldOk(w) && IsTrace(w, states, labels) && i <= |labels| && j <= |labels|
    requires t in states[i].claims && InUserCode(states[i].claims[t])
    requires u in states[j].claims && InUserCode(states[j].claims[u])
    requires states[i].claims[t].phase.sc.IdempotencyKey() == states[j].claims[u].phase.sc.IdempotencyKey()
    ensures states[i].claims[t].run == states[j].claims[u].run && states[i].claims[t].index == states[j].claims[u].index
  {
    ContextIsStored(w, states, labels, i, i, t);
    ContextIsStored(w, states, labels, j, j, u);
    IdsAreIds(w, states, labels, i, states[i].claims[t].run);
    IdsAreIds(w, states, labels, j, states[j].claims[u].run);
    hide IsTrace, WorldOk;
    var c, d := states[i].claims[t], states[j].claims[u];
    var opC := w.defs[states[i].runs[c.run].workflow].ops[c.index];
    var opD := w.defs[states[j].runs[d.run].workflow].ops[d.index];
    assert c.phase.sc.IdempotencyKey() == c.run + ":" + StepKey(c.index, opC.name);
    assert d.phase.sc.IdempotencyKey() == d.run + ":" + StepKey(d.index, opD.name);
    IdempotencyKeysDiffer(c.run, c.index, opC.name, d.run, d.index, opD.name);
  }

  /* ---- events ---- */

  /** A run waiting on a key never coexists with a logged event for that key that was created before
      the deadline and had not expired when the wait transaction began. */
  lemma NoLostWakeup(w: World, states: seq<Sys>, labels: seq<Label>, i: nat, r: RunId, e: Event)
    requires WorldOk(w) && IsTrace(w, states, labels) && i <= |labels|
    requires r in states[i].runs && states[i].runs[r].state.Waiting? && e in states[i].log
    ensures var run := states[i].runs[r];
            && run.workflow in w.defs && run.waitKey.Some? && run.waitDeadline.Some?
            && var ops := w.defs[run.workflow].ops;
               && run.cursor < |ops| && ops[run.cursor].Wait?
               && !(e.key == run.waitKey.value && e.created < run.waitDeadline.value
                    && e.expires > run.waitDeadline.value - WholeMillis(ops[run.cursor].timeout))
  {
    hide Enabled, Apply;
    assert |states| == |labels| + 1;
    Reachable(w, states, labels, i);
    hide IsTrace, CoreOk, LeaseOk, DedupOk, LocksOk, LogOk, TxsOk, OutcomesAt, KeyAt;
    assert EventRow(w, r, states[i].runs[r], states[i].history[r], states[i].log, states[i].emitted, states[i].clock);
  }

  /** Every settled wait has exactly one honest outcome. Received: the payload of an event with the run's
      resolved key, which was the newest one alive and not pruned when the wait looked, or the first answer
      committed after it was parked, created before its deadline. Timed out: the deadline had passed, and every
      answer committed by then had expired when the wait began or was pruned before it looked. */
  lemma HonestOutcome(w: World, states: seq<Sys>, labels: seq<Label>, i: nat, r: RunId, p: nat)
    requires WorldOk(w) && IsTrace(w, states, labels) && i <= |labels|
    requires r in states[i].runs && states[i].runs[r].workflow in w.defs && p in states[i].runs[r].checkpoints
    requires p < |w.defs[states[i].runs[r].workflow].ops| && w.defs[states[i].runs[r].workflow].ops[p].Wait?
    ensures var s := states[i];
            var run := s.runs[r];
            var def := w.defs[run.workflow];
            var timedOut := run.checkpoints[p] == TIMED_OUT;
            var received := exists e :: e in s.emitted && KeyAt(def, r, run, p) == Some(e.key) && run.checkpoints[p] == Received(e.payload);
            && r in s.history
            && (timedOut <==> !received)
            && (timedOut ==> p in s.history[r].timeouts && TimeoutOk(def, r, run, p, s.history[r].timeouts[p], s.emitted, s.clock))
            && (received ==>
                  && p in s.history[r].deliveries && run.checkpoints[p] == Received(s.history[r].deliveries[p].event.payload)
                  && DeliveryOk(def, r, run, p, s.history[r].deliveries[p], s.emitted, s.clock))
  {
    hide Enabled, Apply;
    assert |states| == |labels| + 1;
    Reachable(w, states, labels, i);
    hide IsTrace, CoreOk, LeaseOk, DedupOk, LocksOk, LogOk, TxsOk, WaitAt, KeyAt, TimeoutOk, DeliveryOk;
    var s := states[i];
    var def := w.defs[s.runs[r].workflow];
    assert EventRow(w, r, s.runs[r], s.history[r], s.log, s.emitted, s.clock);
    assert OutcomeAt(def, r, s.runs[r], s.history[r], p, s.emitted, s.clock);
    if p in s.history[r].deliveries && DeliveryOk(def, r, s.runs[r], p, s.history[r].deliveries[p], s.emitted, s.clock) {
      DeliveredWasEmitted(def, r, s.runs[r], p, s.history[r].deliveries[p], s.emitted, s.clock);
    }
  }

  lemma DeliveredWasEmitted(def: Definition, r: RunId, run: Run, p: nat, d: Delivery, emitted: seq<Event>, clock: Time)
    requires p < |def.ops| && def.ops[p].Wait? && DeliveryOk(def, r, run, p, d, emitted, clock)
    ensures d.event in emitted && KeyAt(def, r, run, p) == Some(d.event.key)
  {
  }

  /** A timeout hides no answer that was alive when the wait began, exactly when no such answer was pruned
      before the wait looked, which it did in state `j`. */
  lemma StrictTimeoutIffNotPruned(w: World, states: seq<Sys>, labels: seq<Label>, i: nat, r: RunId, p: nat) returns (j: nat)
    requires WorldOk(w) && IsTrace(w, states, labels) && i <= |labels|
    requires r in states[i].runs && states[i].runs[r].workflow in w.defs && p in states[i].runs[r].checkpoints
    requires p < |w.defs[states[i].runs[r].workflow].ops| && w.defs[states[i].runs[r].workflow].ops[p].Wait?
    requires states[i].runs[r].checkpoints[p] == TIMED_OUT
    ensures r in states[i].history && p in states[i].history[r].timeouts && j < i
    ensures var t := states[i].history[r].timeouts[p];
            var reg := t.registration;
            && t.seen <= |states[i].emitted| && reg.look == LookOf(states[j])
            && ((forall e :: e in states[i].emitted[..t.seen] && Answers(e, reg) ==> e.expires <= reg.begin) <==>
                (forall e :: PrunedBy(labels, j, e) && Answers(e, reg) ==> e.expires <= reg.begin))
  {
    hide Enabled, Apply;
    assert |states| == |labels| + 1;
    hide WorldOk, IsTrace, KeyAt, TimeoutOk, DeliveryOk, PrunedBy, Answers;
    HonestOutcome(w, states, labels, i, r, p);
    j := TimeoutLook(w, states, labels, i, r, p);
    PrunedOrExpired(w.defs[states[i].runs[r].workflow], r, states[i].runs[r], p, states[i].history[r].timeouts[p], states[i].emitted, states[i].clock);
  }

  lemma PrunedOrExpired(def: Definition, r: RunId, run: Run, p: nat, t: Timeout, emitted: seq<Event>, clock: Time)
    requires TimeoutOk(def, r, run, p, t, emitted, clock)
    ensures t.seen <= |emitted|
    ensures (forall e :: e in emitted[..t.seen] && Answers(e, t.registration) ==> e.expires <= t.registration.begin) <==>
            (forall e :: e in t.registration.look.pruned && Answers(e, t.registration) ==> e.expires <= t.registration.begin)
  {
    hide RegistrationOk;
    assert emitted[..t.registration.look.seen] <= emitted[..t.seen];
  }

  /* ---- the live holder ---- */

  lemma HolderSeesAll(def: Definition, t: Token, c: ClaimedRun, run: Run)
    requires RunOk(def, c.run, run) && ClaimOk(def, t, c, run) && run.token == Some(t)
    ensures c.attempt == run.attempt
    ensures run.cursor <= |def.ops| && forall p :: 0 <= p < run.cursor && Records(def.ops[p]) ==> p in run.checkpoints
    ensures InLoop(c) ==> c.values == ValuesOf(run.checkpoints, |def.ops|) && run.cursor <= c.index <= |def.ops|
    ensures InLoop(c) ==> forall p :: run.cursor <= p < c.index ==> p in run.checkpoints
  {
    hide Justified, CountersOk, OutputOk, PhaseOk, StatementOk, TxOk;
  }

  lemma ClaimsAreOk(w: World, states: seq<Sys>, labels: seq<Label>, i: nat, t: Token)
    requires WorldOk(w) && IsTrace(w, states, labels) && i <= |labels| && t in states[i].claims
    ensures var c := states[i].claims[t];
            && c.run in states[i].runs && states[i].runs[c.run].workflow in w.defs
            && ClaimOk(w.defs[states[i].runs[c.run].workflow], t, c, states[i].runs[c.run])
  {
    hide Enabled, Apply;
    assert |states| == |labels| + 1;
    hide RowOk, LeaseOk, EventsOk, DedupOk, ClaimOk, TokenAt;
    Reachable(w, states, labels, i);
    assert ClaimAt(w, states[i].runs, t, states[i].claims[t]);
  }

  /** While a claim's token is on the row, it knows the attempt; and as long as it is in the loop its values are
      exactly the stored checkpoints, it stands at or past the cursor, and everything in between is settled. */
  lemma LiveHolderView(w: World, states: seq<Sys>, labels: seq<Label>, i: nat, t: Token)
    requires WorldOk(w) && IsTrace(w, states, labels) && i <= |labels|
    requires t in states[i].claims && states[i].claims[t].run in states[i].runs
    requires states[i].runs[states[i].claims[t].run].token == Some(t)
    ensures var c := states[i].claims[t];
            var run := states[i].runs[c.run];
            && run.workflow in w.defs && c.attempt == run.attempt
            && var ops := w.defs[run.workflow].ops;
               && run.cursor <= |ops| && (forall p :: 0 <= p < run.cursor && Records(ops[p]) ==> p in run.checkpoints)
               && (InLoop(c) ==>
                     && c.values == ValuesOf(run.checkpoints, |ops|) && run.cursor <= c.index <= |ops|
                     && (forall p :: run.cursor <= p < c.index ==> p in run.checkpoints))
  {
    hide Enabled, Apply;
    assert |states| == |labels| + 1;
    hide IsTrace, WorldOk, RunOk, ClaimOk;
    var c := states[i].claims[t];
    ClaimsAreOk(w, states, labels, i, t);
    RowsAreOk(w, states, labels, i, c.run);
    HolderSeesAll(w.defs[states[i].runs[c.run].workflow], t, c, states[i].runs[c.run]);
  }

  /* ---- terminal runs, checkpoints, output ---- */

  /** Checkpoints are written once, the cursor and the attempt count never go back, and a terminal
      run never changes again. */
  lemma WriteOnceAndAbsorbing(w: World, states: seq<Sys>, labels: seq<Label>, i: nat, j: nat, r: RunId)
    requires WorldOk(w) && IsTrace(w, states, labels) && i <= j <= |labels| && r in states[i].runs
    ensures r in states[j].runs
    ensures var run, after := states[i].runs[r], states[j].runs[r];
            && (forall p :: p in run.checkpoints ==> p in after.checkpoints && after.checkpoints[p] == run.checkpoints[p])
            && run.cursor <= after.cursor && run.attempt <= after.attempt
            && after.workflow == run.workflow && after.input == run.input && after.dedup == run.dedup
            && (run.state.Terminal() ==> after == run)
  {
    RowsLater(w, states, labels, i, j, r);
  }

  /** Lease and wait columns are set exactly in the states that need them, a waiting run has no checkpoint at its
      cursor yet, and the counters tell exactly which runs failed. */
  lemma ColumnsMatchState(w: World, states: seq<Sys>, labels: seq<Label>, i: nat, r: RunId)
    requires WorldOk(w) && IsTrace(w, states, labels) && i <= |labels| && r in states[i].runs
    ensures var run := states[i].runs[r];
            && (run.state.Leased? <==> run.token.Some?) && (run.state.Leased? <==> run.leaseUntil.Some?)
            && (run.state.Waiting? <==> run.waitKey.Some?) && (run.state.Waiting? <==> run.waitDeadline.Some?)
            && (run.state.Waiting? ==> run.cursor !in run.checkpoints)
            && run.attempt <= run.maxAttempts && run.leaseFailures <= run.maxAttempts
            && (run.state.Failed? <==> run.attempt == run.maxAttempts || run.leaseFailures == run.maxAttempts)
  {
    RowsAreOk(w, states, labels, i, r);
  }

  /** On every path to completion the output is the checkpoint at the greatest step or wait position,
      absent only when the definition has none, and the cursor is past the last operation. */
  lemma CanonicalOutput(w: World, states: seq<Sys>, labels: seq<Label>, i: nat, r: RunId)
    requires WorldOk(w) && IsTrace(w, states, labels) && i <= |labels| && r in states[i].runs
    requires states[i].runs[r].state.Completed?
    ensures var run := states[i].runs[r];
            && run.workflow in w.defs
            && var def := w.defs[run.workflow];
               && run.cursor == |def.ops|
               && (run.output.None? <==> forall p :: 0 <= p < |def.ops| ==> def.ops[p].Sleep?)
               && (forall k :: 0 <= k < |def.ops| && IsLastRecording(def.ops, k) ==> k in run.checkpoints && run.output == Some(run.checkpoints[k]))
  {
    RowsAreOk(w, states, labels, i, r);
    hide IsTrace, Justified, CountersOk;
    var run := states[i].runs[r];
    var def := w.defs[run.workflow];
    forall k | 0 <= k < |def.ops| && IsLastRecording(def.ops, k)
      ensures k == def.outputIndex
    {
    }
  }

  /* ---- leases ---- */

  /** A claim's confirmed local deadline exceeds the lease in the database by at most the part of
      the lease lifetime below a millisecond. */
  lemma DeadlineWithinLease(w: World, states: seq<Sys>, labels: seq<Label>, i: nat, t: Token)
    requires WorldOk(w) && IsTrace(w, states, labels) && i <= |labels|
    requires t in states[i].claims && states[i].claims[t].run in states[i].runs
    requires states[i].runs[states[i].claims[t].run].token == Some(t)
    ensures var until := states[i].runs[states[i].claims[t].run].leaseUntil;
            until.Some? && states[i].claims[t].deadline <= until.value + w.ttl % MILLISECOND
  {
    hide Enabled, Apply;
    assert |states| == |labels| + 1;
    Reachable(w, states, labels, i);
    hide IsTrace, EventsOk, DedupOk, RowOk, PhaseOk, ViewOk, StatementOk, TxOk, Released;
    assert ClaimAt(w, states[i].runs, t, states[i].claims[t]);
  }

  /** With a lease lifetime in whole milliseconds the local deadline never outlives the lease. */
  lemma DeadlineConservative(w: World, states: seq<Sys>, labels: seq<Label>, i: nat, t: Token)
    requires WorldOk(w) && IsTrace(w, states, labels) && i <= |labels| && w.ttl % MILLISECOND == 0
    requires t in states[i].claims && states[i].claims[t].run in states[i].runs
    requires states[i].runs[states[i].claims[t].run].token == Some(t)
    ensures var until := states[i].runs[states[i].claims[t].run].leaseUntil;
            until.Some? && states[i].claims[t].deadline <= until.value
  {
    DeadlineWithinLease(w, states, labels, i, t);
  }

  /** A claim in user code before its deadline is the latest claim of its run. */
  lemma LiveIsLatest(w: World, t: Token, c: ClaimedRun, run: Run, latest: Option<Token>, clock: Time)
    requires LeaseAt(w, t, c, run, latest, clock) && InUserCode(c) && c.deadline > clock
    ensures latest == Some(t)
  {
  }

  /** Two claims of one run are never both inside user code with unexpired confirmed deadlines,
      whatever the lease lifetime: an expired lease is offered again only after a backoff that is
      longer than the sub-millisecond part a deadline can be late by. */
  lemma MutualExclusion(w: World, states: seq<Sys>, labels: seq<Label>, i: nat, t: Token, u: Token)
    requires WorldOk(w) && IsTrace(w, states, labels) && i <= |labels|
    requires t in states[i].claims && u in states[i].claims && states[i].claims[t].run == states[i].claims[u].run
    requires InUserCode(states[i].claims[t]) && states[i].claims[t].deadline > states[i].clock
    requires InUserCode(states[i].claims[u]) && states[i].claims[u].deadline > states[i].clock
    ensures t == u
  {
    hide Enabled, Apply;
    assert |states| == |labels| + 1;
    Reachable(w, states, labels, i);
    hide IsTrace, EventsOk, DedupOk, CoreOk, LeaseAt, LatestAt, WorldOk;
    var s := states[i];
    var r := s.claims[t].run;
    LiveIsLatest(w, t, s.claims[t], s.runs[r], s.history[r].latest, s.clock);
    LiveIsLatest(w, u, s.claims[u], s.runs[r], s.history[r].latest, s.clock);
  }

  /* ---- fencing ---- */

  /** The token is on no row, or only with a lease that has run out. */
  ghost predicate Dead(s: Sys, t: Token) {
    && t in s.claims
    && (forall r :: r in s.runs && s.runs[r].token == Some(t) ==> s.runs[r].leaseUntil.Some? && s.runs[r].leaseUntil.value <= s.clock)
  }

  lemma RejectedWritesNothing(s: Sys, t: Token, x: Exec)
    requires t in s.claims && s.claims[t].run in s.runs && CanExecute(s.claims[t], x, s.clock)
    requires !Fence(s.runs[s.claims[t].run], t, s.clock)
    ensures DoServer(s, t, x).runs == s.runs
  {
    hide Registered;
    var c := s.claims[t];
    assert Executed(c, t, s.runs[c.run], s.clock, x).run == s.runs[c.run];
    assert s.runs[c.run := s.runs[c.run]] == s.runs;
  }

  lemma ServerTouchesOneRow(w: World, s: Sys, t: Token, x: Exec)
    requires LeaseOk(w, s) && t in s.claims && s.claims[t].run in s.runs && CanExecute(s.claims[t], x, s.clock)
    requires DoServer(s, t, x).runs != s.runs
    ensures var r := s.claims[t].run;
            && r in s.history && Fence(s.runs[r], t, s.clock) && s.history[r].latest == Some(t)
            && DoServer(s, t, x).runs == s.runs[r := DoServer(s, t, x).runs[r]]
  {
    hide Registered, Executed, CanExecute, Released;
    if !Fence(s.runs[s.claims[t].run], t, s.clock) {
      RejectedWritesNothing(s, t, x);
    }
  }

  /** A statement sent under a token changes a row only if that token is the run's latest claim, still
      on the row, with an unexpired lease; and then it changes no other row. */
  lemma AcceptedWriteIsCurrent(w: World, states: seq<Sys>, labels: seq<Label>, i: nat)
    requires WorldOk(w) && IsTrace(w, states, labels) && i < |labels|
    requires labels[i].Server? && states[i + 1].runs != states[i].runs
    ensures var t := labels[i].token;
            var s := states[i];
            && t in s.claims && s.claims[t].run in s.runs && s.claims[t].run in s.history
            && Fence(s.runs[s.claims[t].run], t, s.clock)
            && s.history[s.claims[t].run].latest == Some(t)
            && states[i + 1].runs == s.runs[s.claims[t].run := states[i + 1].runs[s.claims[t].run]]
  {
    hide LeaseOk, EventsOk, DedupOk, CoreOk, WorldOk, DoServer, CanExecute;
    Reachable(w, states, labels, i);
    assert Enabled(w, states[i], labels[i]) && states[i + 1] == Apply(w, states[i], labels[i]);
    hide IsTrace;
    ServerTouchesOneRow(w, states[i], labels[i].token, labels[i].exec);
  }

  /** Whatever the step, a row whose lease has run out under its token only loses that token. */
  lemma DeadRow(w: World, s: Sys, l: Label, r: RunId)
    requires Enabled(w, s, l) && r in s.runs && s.runs[r].state.Leased?
    requires s.runs[r].leaseUntil.Some? && s.runs[r].leaseUntil.value <= s.clock
    requires r in Apply(w, s, l).runs
    ensures Apply(w, s, l).runs[r] == s.runs[r] || Apply(w, s, l).runs[r].token.None?
  {
    hide Moved, CanMove, Executed, CanExecute, Registered, LockFree, LatestEvent, Claim, Renew, Wake, TimeOut;
    if l.Server? && s.claims[l.token].run == r {
      RejectedWritesNothing(s, l.token, l.exec);
    }
  }

  lemma TokenMeansLeased(w: World, s: Sys, r: RunId)
    requires CoreOk(w, s.runs, s.claims) && r in s.runs && s.runs[r].token.Some?
    ensures s.runs[r].state.Leased?
  {
    hide ProgressOk, CountersOk, OutputOk, Justified, ClaimAt, TokenAt;
    assert RowOk(w, r, s.runs[r]);
  }

  /** Once dead, a token stays dead, and no statement sent under it changes a row or a checkpoint. */
  lemma DeadStays(w: World, s: Sys, l: Label, t: Token)
    requires WorldOk(w) && SysOk(w, s) && Enabled(w, s, l) && Dead(s, t)
    ensures Dead(Apply(w, s, l), t)
    ensures l.Server? && l.token == t ==> Apply(w, s, l).runs == s.runs
  {
    hide CoreOk, LeaseOk, EventsOk, DedupOk, WorldOk, RowsStep, Apply, Enabled;
    SysStep(w, s, l);
    ClockAndClaims(w, s, l, t);
    if !l.Enqueue? {
      KeysStep(w, s, l);
    }
    var s' := Apply(w, s, l);
    forall r | r in s'.runs && s'.runs[r].token == Some(t)
      ensures s'.runs[r].leaseUntil.Some? && s'.runs[r].leaseUntil.value <= s'.clock
    {
      DeadOrigin(w, s, l, t, r);
      TokenMeansLeased(w, s, r);
      DeadRow(w, s, l, r);
    }
    if l.Server? && l.token == t {
      DeadWritesNothing(w, s, t, l.exec);
    }
  }

  lemma DeadWritesNothing(w: World, s: Sys, t: Token, x: Exec)
    requires Enabled(w, s, Server(t, x)) && Dead(s, t)
    ensures Apply(w, s, Server(t, x)).runs == s.runs
  {
    hide DoServer, CanExecute;
    RejectedWritesNothing(s, t, x);
  }

  lemma ClockAndClaims(w: World, s: Sys, l: Label, t: Token)
    requires Enabled(w, s, l) && t in s.claims
    ensures t in Apply(w, s, l).claims && s.clock <= Apply(w, s, l).clock
  {
    hide Moved, CanMove, CanTxMove, DoTxMove, DoServer, CanExecute, DoEmit, DoEnqueue, DoPromote, DoRecover, DoClaim, DoRenew, CanEmitMove;
    match l {
      case Waiting(u, m) => TxClaims(w, s, u, m);
      case Server(u, x) => ServerClaims(s, u, x);
      case _ => OtherClaims(w, s, l, t);
    }
  }

  lemma TxClaims(w: World, s: Sys, t: Token, m: TxMove)
    requires t in s.claims && CanTxMove(w, s, t, m)
    ensures DoTxMove(w, s, t, m).claims.Keys == s.claims.Keys && DoTxMove(w, s, t, m).clock == s.clock
  {
    hide LockFree, LatestEvent;
  }

  lemma ServerClaims(s: Sys, t: Token, x: Exec)
    requires t in s.claims && s.claims[t].run in s.runs && CanExecute(s.claims[t], x, s.clock)
    ensures DoServer(s, t, x).claims.Keys == s.claims.Keys && DoServer(s, t, x).clock == s.clock
  {
    hide Executed, CanExecute, Registered;
  }

  lemma OtherClaims(w: World, s: Sys, l: Label, t: Token)
    requires Enabled(w, s, l) && !l.Waiting? && !l.Server? && t in s.claims
    ensures t in Apply(w, s, l).claims && s.clock <= Apply(w, s, l).clock
  {
    hide Moved, CanMove, CanEmitMove, WakeAll, RenewAll, TimeOutAll, RecoverAll, Claim, NoteWake, NoteTimeout, Confirmed, Duplicate, Start;
  }

  lemma InsertedUnleased(w: World, s: Sys, l: Label, r: RunId)
    requires Enabled(w, s, l) && l.Enqueue? && r in Apply(w, s, l).runs && r !in s.runs
    ensures Apply(w, s, l).runs[r].token.None?
  {
    hide Duplicate;
  }

  lemma DeadOrigin(w: World, s: Sys, l: Label, t: Token, r: RunId)
    requires Enabled(w, s, l) && t in s.claims && RowsStep(w, s, Apply(w, s, l))
    requires r in Apply(w, s, l).runs && Apply(w, s, l).runs[r].token == Some(t)
    requires !l.Enqueue? ==> Apply(w, s, l).runs.Keys == s.runs.Keys
    ensures r in s.runs && s.runs[r].token == Some(t)
  {
    hide Apply, Enabled, Evolves, RowOk;
    if r !in s.runs {
      InsertedUnleased(w, s, l, r);
    } else {
      assert RowStep(w, s.claims, r, s.runs[r], Apply(w, s, l).runs[r]);
    }
  }

  /** A renewal that names a dead token does what it does without it. */
  lemma DeadIsNotRenewed(w: World, s: Sys, tokens: set<Token>, at: Time, t: Token)
    requires Dead(s, t) && tokens <= s.claims.Keys
    ensures DoRenew(w, s, tokens, at) == DoRenew(w, s, tokens - {t}, at)
  {
    hide Renew;
    forall r | r in s.runs ensures Renewed(s, tokens, r) == Renewed(s, tokens - {t}, r) {
    }
    assert RenewAll(s.runs, Pairs(s, tokens), s.clock, w.ttl) == RenewAll(s.runs, Pairs(s, tokens - {t}), s.clock, w.ttl);
    forall u | u in s.claims ensures Confirmed(s, tokens, u) == Confirmed(s, tokens - {t}, u) {
    }
  }

  /** Fencing over whole runs: from the moment a token is superseded or its lease runs out, no statement
      sent under it ever changes a run or a checkpoint again, and naming it in a renewal has no effect. */
  lemma {:induction false} FencedForever(w: World, states: seq<Sys>, labels: seq<Label>, i: nat, j: nat, t: Token)
    requires WorldOk(w) && IsTrace(w, states, labels) && i <= j <= |labels| && Dead(states[i], t)
    ensures Dead(states[j], t)
    ensures j < |labels| && labels[j].Server? && labels[j].token == t ==> states[j + 1].runs == states[j].runs
    ensures j < |labels| && labels[j].RenewLeases? ==>
              labels[j].tokens <= states[j].claims.Keys && states[j + 1] == DoRenew(w, states[j], labels[j].tokens - {t}, labels[j].passAt)
    decreases j
  {
    hide SysOk, Enabled, Apply, Dead, WorldOk, DoRenew;
    if i == j {
    } else {
      FencedForever(w, states, labels, i, j - 1, t);
      Reachable(w, states, labels, j - 1);
      DeadStays(w, states[j - 1], labels[j - 1], t);
    }
    if j < |labels| {
      Reachable(w, states, labels, j);
      DeadStays(w, states[j], labels[j], t);
      if labels[j].RenewLeases? {
        RenewApplies(w, states[j], labels[j]);
        DeadIsNotRenewed(w, states[j], labels[j].tokens, labels[j].passAt, t);
      }
    }
  }

  lemma RenewApplies(w: World, s: Sys, l: Label)
    requires Enabled(w, s, l) && l.RenewLeases?
    ensures l.tokens <= s.claims.Keys && Apply(w, s, l) == DoRenew(w, s, l.tokens, l.passAt)
  {
    hide DoRenew;
  }

  /* ---- deduplication ---- */

  /** Two enqueued runs with the same workflow name and deduplication key are the same run, at any
      two moments of a run of the system. */
  lemma DedupAcrossTime(w: World, states: seq<Sys>, labels: seq<Label>, i: nat, j: nat, a: RunId, b: RunId)
    requires WorldOk(w) && IsTrace(w, states, labels) && i <= j <= |labels|
    requires a in states[i].runs && b in states[j].runs
    requires SameDedup(states[j].runs[b], states[i].runs[a].workflow.name, states[i].runs[a].dedup)
    ensures a == b
  {
    hide Enabled, Apply;
    assert |states| == |labels| + 1;
    hide WorldOk, IsTrace, CoreOk, LeaseOk, EventsOk;
    RowsLater(w, states, labels, i, j, a);
    Reachable(w, states, labels, j);
  }
}
