/** What can always be done: recording a failure, renewing a lease, cancelling, enqueueing and answering a wait, from every
    reachable state in which they make sense. */
module Capabilities {
  import opened Basics
  import opened Workflow
  import opened Rows
  import opened Tables
  import opened RunInvariant
  import opened Worker
  import opened ClaimInvariant
  import opened Protocol
  import opened CoreInvariant
  import opened LeaseInvariant
  import opened EventInvariant
  import opened EventSteps
  import opened SystemInvariant
  import opened Occurrences
  import opened Columns
  import opened Settling
  import opened Backoff
  import Text

  /* ---- failures ---- */

  /** A claim that failed while it holds its run can record that: one attempt more, the error text, the lease given back,
      and the run ready again or failed. */
  lemma FailureIsRecorded(w: World, states: seq<Sys>, labels: seq<Label>, i: nat, t: Token) returns (s': Sys)
    requires WorldOk(w) && IsTrace(w, states, labels) && i <= |labels|
    requires Holding(states[i], t) && states[i].claims[t].phase.Failing?
    ensures Leads(w, states[i], s') && t in s'.claims && s'.claims[t].phase.Done? && s'.claims[t].fail.None?
    ensures var r := states[i].claims[t].run;
            var run := states[i].runs[r];
            && r in s'.runs && s'.runs[r].attempt == run.attempt + 1 && s'.runs[r].lastError == Some(states[i].claims[t].phase.error)
            && s'.runs[r].token.None? && s'.runs[r].leaseUntil.None?
            && s'.runs[r].state == (if run.attempt + 1 < run.maxAttempts then Ready else Failed)
  {
    hide Enabled, Apply;
    assert |states| == |labels| + 1;
    hide IsTrace, WorldOk, SysOk;
    Reachable(w, states, labels, i);
    StartsHere(w, states[i]);
    s' := ReportsFailure(w, states[i], states[i], t);
  }

  lemma ReportsFailure(w: World, a: Sys, s: Sys, t: Token) returns (s': Sys)
    requires OnWay(w, a, s) && Holding(s, t) && s.claims[t].phase.Failing?
    ensures OnWay(w, a, s') && t in s'.claims && s'.claims[t].phase.Done? && s'.claims[t].fail.None?
    ensures var r := s.claims[t].run;
            && r in s'.runs && s'.runs[r].attempt == s.runs[r].attempt + 1 && s'.runs[r].lastError == Some(s.claims[t].phase.error)
            && s'.runs[r].token.None? && s'.runs[r].leaseUntil.None?
            && s'.runs[r].state == (if s.runs[r].attempt + 1 < s.runs[r].maxAttempts then Ready else Failed)
  {
    hide OnWay, RunOk, WellFormed, AfterAttempt;
    HasDefinition(w, a, s, s.claims[t].run);
    HolderAttempt(w, a, s, t);
    s' := LocalMove(w, a, s, t, SendFail);
    s' := ServerMove(w, a, s', t, ExecFail(s.clock));
  }

  lemma HolderAttempt(w: World, a: Sys, s: Sys, t: Token)
    requires OnWay(w, a, s) && Holding(s, t)
    ensures s.claims[t].attempt == s.runs[s.claims[t].run].attempt
  {
    hide Leads, WorldOk, LeaseOk, EventsOk, DedupOk, FieldsOk, CoreOk;
    HolderKnows(w, s, t, s.claims[t].run);
  }

  /* ---- renewal ---- */

  /** A held lease can be renewed and the claim told: the row's lease and the claim's deadline move on to a lease length
      from now. */
  lemma LeaseCanBeRenewed(w: World, states: seq<Sys>, labels: seq<Label>, i: nat, t: Token) returns (s': Sys)
    requires WorldOk(w) && IsTrace(w, states, labels) && i <= |labels| && Holding(states[i], t)
    ensures Leads(w, states[i], s') && t in s'.claims && s'.claims[t].run == states[i].claims[t].run && s'.claims[t].run in s'.runs
    ensures s'.runs[s'.claims[t].run].leaseUntil == Some(states[i].clock + Millis(w.ttl)) && s'.runs[s'.claims[t].run].token == Some(t)
    ensures s'.claims[t].deadline == states[i].clock + w.ttl && s'.claims[t].phase == states[i].claims[t].phase
  {
    hide Enabled, Apply, SysOk, WorldOk, IsContinuation;
    Reachable(w, states, labels, i);
    StartsHere(w, states[i]);
    s' := Renews(w, states[i], states[i], t);
  }

  lemma Renews(w: World, a: Sys, s: Sys, t: Token) returns (s': Sys)
    requires OnWay(w, a, s) && Holding(s, t)
    ensures OnWay(w, a, s') && t in s'.claims && s'.claims[t].run == s.claims[t].run && s'.claims[t].run in s'.runs
    ensures s'.runs[s'.claims[t].run].leaseUntil == Some(s.clock + Millis(w.ttl)) && s'.runs[s'.claims[t].run].token == Some(t)
    ensures s'.claims[t].deadline == s.clock + w.ttl && s'.claims[t].phase == s.claims[t].phase
  {
    hide OnWay, RunOk, WellFormed, RowsStep;
    HasDefinition(w, a, s, s.claims[t].run);
    s' := Advance(w, a, s, RenewLeases({t}, s.clock));
    assert s'.claims[t].confirm == Some(s.clock + w.ttl);
    s' := LocalMove(w, a, s', t, AckRenewal);
  }

  /* ---- clients ---- */

  /** Any unfinished run can be cancelled at once. */
  lemma CanCancel(w: World, states: seq<Sys>, labels: seq<Label>, i: nat, r: RunId)
    requires WorldOk(w) && IsTrace(w, states, labels) && i <= |labels| && r in states[i].runs && Unfinished(states[i].runs[r])
    ensures Enabled(w, states[i], CancelRun(r))
    ensures r in Apply(w, states[i], CancelRun(r)).runs && Apply(w, states[i], CancelRun(r)).runs[r].state.Cancelled?
  {
  }

  /** A well-formed request for a published workflow can be made at any time and with any due time; it creates the run as
      asked exactly when the identifier is free and no run of the workflow owns the key. */
  lemma CanEnqueue(w: World, states: seq<Sys>, labels: seq<Label>, i: nat, id: RunId, key: WorkflowKey, queue: string, max: nat,
                   at: Option<Time>, input: Json, dedup: Option<string>)
    requires WorldOk(w) && IsTrace(w, states, labels) && i <= |labels| && IsId(id) && key in w.defs && 0 < max
    ensures var l := Enqueue(id, key, queue, max, at, states[i].clock, input, dedup);
            && Enabled(w, states[i], l)
            && (id !in states[i].runs ==> (id in Apply(w, states[i], l).runs <==> IsEnqueue(states[i], l, id)))
            && (IsEnqueue(states[i], l, id) ==> IsNew(l, Apply(w, states[i], l).runs[id]))
            && (!IsEnqueue(states[i], l, id) ==> Apply(w, states[i], l).runs == states[i].runs)
  {
    assert |states| == |labels| + 1;
    hide IsTrace, WorldOk;
    var l := Enqueue(id, key, queue, max, at, states[i].clock, input, dedup);
    if id !in states[i].runs {
      EnqueuedColumns(w, states[i], l, id);
    }
  }

  /* ---- sweeps ---- */

  /** A lease can be recovered exactly when it ended before the sweep's statement, a wait timed out exactly when its
      deadline had come by then; which is for a lease from one instant after its end on, for a wait from its deadline on. */
  lemma SweepsExactly(w: World, states: seq<Sys>, labels: seq<Label>, i: nat, r: RunId, now: Time, statement: Time)
    requires WorldOk(w) && IsTrace(w, states, labels) && i <= |labels| && now <= statement <= states[i].clock
    ensures Enabled(w, states[i], RecoverLeases({r}, statement)) <==>
            r in states[i].runs && states[i].runs[r].state.Leased? && LastGrant(w, states, labels, i, r).Some? &&
            LastGrant(w, states, labels, i, r).value < statement
    ensures Enabled(w, states[i], PromoteTimedOut({r}, now, statement)) <==>
            r in states[i].runs && states[i].runs[r].waitDeadline.Some? && states[i].runs[r].waitDeadline.value <= statement
  {
    hide Apply, LastGrant, CanMove, CanTxMove, CanEmitMove, CanExecute;
    assert |states| == |labels| + 1;
    hide WorldOk, IsTrace;
    if r in states[i].runs {
      FieldsAlong(w, states, labels, i, r);
      if states[i].runs[r].state.Leased? {
        LeaseIsLastGrant(w, states, labels, i, r);
      }
    }
  }

  lemma FieldsAlong(w: World, states: seq<Sys>, labels: seq<Label>, i: nat, r: RunId)
    requires WorldOk(w) && IsTrace(w, states, labels) && i <= |labels| && r in states[i].runs
    ensures FieldsOk(states[i].runs[r])
  {
    hide Enabled, Apply, WorldOk, LeaseOk, EventsOk, DedupOk, CoreOk, FieldsOk;
    Reachable(w, states, labels, i);
    RowFields(w, states[i], r);
  }

  /* ---- answers ---- */

  /** Whoever holds the lock can roll back, so that an emitter gets it. */
  lemma FreesEmitLock(w: World, a: Sys, s: Sys, x: nat, lock: int) returns (s': Sys)
    requires OnWay(w, a, s) && x in s.emits && !s.emits[x].locked
    ensures OnWay(w, a, s') && s'.runs == s.runs && s'.clock == s.clock && x in s'.emits && s'.emits[x] == s.emits[x] && LockFree(w, s', lock)
  {
    hide OnWay, RowsStep, Holds, LocksOk;
    EventsAreOk(w, a, s);
    if o :| Holds(w, s.claims, s.emits, o, lock) {
      match o {
        case Waiter(u) =>
          WaiterHolds(w, s, u, lock);
          s' := WaitMove(w, a, s, u, WaitRollback);
          HolderGone(w, s, s', o, lock);
        case Emitter(y) =>
          OtherEmitter(w, s, x, y, lock);
          s' := Advance(w, a, s, Emitting(y, EmitRollback));
          HolderGone(w, s, s', o, lock);
      }
    } else {
      s' := s;
    }
  }

  lemma WaiterHolds(w: World, s: Sys, u: Token, lock: int)
    requires Holds(w, s.claims, s.emits, Waiter(u), lock)
    ensures u in s.claims && s.claims[u].tx.Some?
  {
  }

  lemma OtherEmitter(w: World, s: Sys, x: nat, y: nat, lock: int)
    requires x in s.emits && !s.emits[x].locked && Holds(w, s.claims, s.emits, Emitter(y), lock)
    ensures y in s.emits && y != x
  {
  }

  /** The key a run waits on is one that can be emitted, and its outcome is still open. */
  lemma WaitKeyCanBeEmitted(w: World, a: Sys, s: Sys, r: RunId)
    requires OnWay(w, a, s) && r in s.runs && s.runs[r].state.Waiting?
    ensures s.runs[r].waitKey.Some? && s.runs[r].waitKey.value != "" && Text.IsTrimmed(s.runs[r].waitKey.value)
    ensures s.runs[r].cursor !in s.runs[r].checkpoints
  {
    hide Leads, WorldOk, LeaseOk, DedupOk, LocksOk, LogOk, TxsOk, OutcomesAt, Unanswered, LookOk, ClaimAt, TokenAt, Justified, OutputOk, CountersOk,
         ContextAt;
    assert RowOk(w, r, s.runs[r]);
    assert EventRow(w, r, s.runs[r], s.history[r], s.log, s.emitted, s.clock);
  }

  /** An emission of any key can be brought to its lock. */
  lemma OpensEmission(w: World, a: Sys, s: Sys, key: string, payload: Json) returns (s': Sys, x: nat)
    requires OnWay(w, a, s) && key != "" && Text.IsTrimmed(key)
    ensures OnWay(w, a, s') && s'.runs == s.runs && s'.clock == s.clock && x in s'.emits && s'.emits[x] == EmitTx(key, payload, s.clock, true)
  {
    hide OnWay, RowsStep, LockFree;
    x := Above(s.emits.Keys);
    s' := Advance(w, a, s, Emitting(x, EmitBegin(key, payload)));
    s' := FreesEmitLock(w, a, s', x, w.lock(key));
    s' := Advance(w, a, s', Emitting(x, EmitLock));
  }

  lemma Delivers(w: World, a: Sys, s: Sys, r: RunId, payload: Json) returns (s': Sys)
    requires OnWay(w, a, s) && r in s.runs && s.runs[r].state.Waiting?
    requires s.runs[r].waitDeadline.Some? && s.clock < s.runs[r].waitDeadline.value
    ensures OnWay(w, a, s') && r in s'.runs && s'.runs[r].state.Ready? && s'.runs[r].nextRunAt <= s'.clock
    ensures s'.runs[r].cursor == s.runs[r].cursor && s'.runs[r].cursor in s'.runs[r].checkpoints
    ensures s'.runs[r].checkpoints[s'.runs[r].cursor] == JObject(map["received" := payload])
  {
    hide OnWay, RowsStep, LockFree, NoteWake;
    WaitKeyCanBeEmitted(w, a, s, r);
    var x;
    s', x := OpensEmission(w, a, s, s.runs[r].waitKey.value, payload);
    s' := Advance(w, a, s', EmitCommit(x));
  }

  /** A waiting run whose deadline is ahead can be answered with any payload: it becomes ready at once, with the payload
      recorded at its cursor. */
  lemma CanBeAnswered(w: World, states: seq<Sys>, labels: seq<Label>, i: nat, r: RunId, payload: Json) returns (s': Sys)
    requires WorldOk(w) && IsTrace(w, states, labels) && i <= |labels| && r in states[i].runs && states[i].runs[r].state.Waiting?
    requires states[i].runs[r].waitDeadline.Some? && states[i].clock < states[i].runs[r].waitDeadline.value
    ensures Leads(w, states[i], s') && r in s'.runs && s'.runs[r].state.Ready? && s'.runs[r].nextRunAt <= s'.clock
    ensures s'.runs[r].cursor == states[i].runs[r].cursor && s'.runs[r].cursor in s'.runs[r].checkpoints
    ensures s'.runs[r].checkpoints[s'.runs[r].cursor] == JObject(map["received" := payload])
  {
    hide Enabled, Apply;
    assert |states| == |labels| + 1;
    hide IsTrace, WorldOk, SysOk;
    Reachable(w, states, labels, i);
    StartsHere(w, states[i]);
    s' := Delivers(w, states[i], states[i], r, payload);
  }
}
