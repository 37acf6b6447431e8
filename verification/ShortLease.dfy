/** The lease length reaches SQL in whole milliseconds: below one, no statement of any worker ever passes the fence. */
module ShortLease {
  import opened Basics
  import opened Workflow
  import opened Rows
  import opened Worker
  import opened Protocol
  import CoreInvariant
  import opened SystemInvariant
  import opened Settling

  /** Nothing has been done for the run, and nobody holds it now. */
  predicate Untouched(run: Run, clock: Time) {
    && !run.state.Completed? && !run.state.Waiting?
    && run.cursor == 0 && run.checkpoints == map[]
    && (run.leaseUntil.Some? ==> run.leaseUntil.value <= clock)
  }

  ghost predicate AllUntouched(s: Sys) {
    forall r :: r in s.runs ==> Untouched(s.runs[r], s.clock)
  }

  /** No statement of a worker changes such a row. */
  lemma StatementMissesIt(c: ClaimedRun, t: Token, run: Run, clock: Time, x: Exec)
    requires CanExecute(c, x, clock) && Untouched(run, clock)
    ensures Executed(c, t, run, clock, x).run == run
  {
    assert !Fence(run, t, clock);
  }

  /** The sweeps find no waiting row, and renewal no unexpired lease. */
  lemma SweepsMissThem(w: World, s: Sys, l: Label)
    requires AllUntouched(s) && Enabled(w, s, l) && (l.EmitCommit? || l.PromoteTimedOut? || l.RenewLeases?)
    ensures Apply(w, s, l).runs == s.runs && Apply(w, s, l).clock == s.clock
  {
    hide Wake, TimeOut, Renew, NoteWake, NoteTimeout, Confirmed;
  }

  lemma ClientsLeaveThem(w: World, s: Sys, l: Label)
    requires w.ttl < MILLISECOND && AllUntouched(s) && Enabled(w, s, l)
    requires l.Tick? || l.Enqueue? || l.ClaimRun? || l.RecoverLeases? || l.CancelRun?
    ensures AllUntouched(Apply(w, s, l))
  {
    hide Inserts, Start;
  }

  lemma UntouchedStep(w: World, s: Sys, l: Label)
    requires w.ttl < MILLISECOND && AllUntouched(s) && Enabled(w, s, l)
    ensures AllUntouched(Apply(w, s, l))
  {
    hide Executed, CanExecute, Registered, Moved, CanTxMove, CanEmitMove, CanMove, HasDef, Untouched, Inserts,
         DoEnqueue, DoClaim, DoRenew, DoEmit, DoPromote, DoRecover;
    match l {
      case Server(t, x) => StatementMissesIt(s.claims[t], t, s.runs[s.claims[t].run], s.clock, x);
      case EmitCommit(_) => SweepsMissThem(w, s, l);
      case PromoteTimedOut(_, _, _) => SweepsMissThem(w, s, l);
      case RenewLeases(_, _) => SweepsMissThem(w, s, l);
      case Local(_, _) =>
      case Waiting(_, _) =>
      case Emitting(_, _) =>
      case Prune(_, _) =>
      case _ => ClientsLeaveThem(w, s, l);
    }
  }

  lemma {:induction false} UntouchedUpTo(w: World, states: seq<Sys>, labels: seq<Label>, i: nat)
    requires w.ttl < MILLISECOND && IsTrace(w, states, labels) && i <= |labels|
    ensures AllUntouched(states[i])
  {
    hide Enabled, Apply;
    if i == 0 {
    } else {
      UntouchedUpTo(w, states, labels, i - 1);
      UntouchedStep(w, states[i - 1], labels[i - 1]);
    }
  }

  /** Some history of the world completes a run. */
  ghost predicate SomeRunCompletes(w: World) {
    exists states, labels, r :: IsTrace(w, states, labels) && CompletedIn(states, |labels|, r)
  }

  predicate CompletedIn(states: seq<Sys>, i: nat, r: RunId) {
    i < |states| && r in states[i].runs && states[i].runs[r].state.Completed?
  }

  /** From an empty database: enqueue, and go on to the end. */
  lemma FirstRunCompletes(w: World, k: WorkflowKey, id: RunId)
    requires WorldOk(w) && MILLISECOND <= w.ttl && k in w.defs && Able(w.defs[k]) && IsId(id)
    ensures SomeRunCompletes(w)
  {
    hide OnWay, Able, WorldOk, SysOk, CoreInvariant.RowsStep;
    var start := Init(0);
    InitOk(w, 0);
    StartsHere(w, start);
    var s := Advance(w, start, start, Enqueue(id, k, "default", 1, None, 0, JOther("null"), None));
    s := FromReady(w, start, s, id);
    AsTrace(w, start, s, id);
  }

  lemma AsTrace(w: World, start: Sys, s: Sys, r: RunId)
    requires OnWay(w, start, s) && start == Init(start.clock) && r in s.runs && s.runs[r].state.Completed?
    ensures SomeRunCompletes(w)
  {
    hide SysOk, WorldOk, Enabled, Apply;
    var states, labels :| IsContinuation(w, states, labels, start, s);
    assert IsTrace(w, states, labels) && CompletedIn(states, |labels|, r);
  }

  /** Where a registered workflow's code can return at all, a run can complete exactly when the lease lasts a millisecond. */
  lemma CompletionNeedsAMillisecond(w: World, k: WorkflowKey, id: RunId)
    requires WorldOk(w) && k in w.defs && Able(w.defs[k]) && IsId(id)
    ensures SomeRunCompletes(w) <==> MILLISECOND <= w.ttl
  {
    hide WorldOk, Able, IsTrace;
    if MILLISECOND <= w.ttl {
      FirstRunCompletes(w, k, id);
    } else {
      forall states, labels, r | IsTrace(w, states, labels) ensures !CompletedIn(states, |labels|, r) {
        UntouchedUpTo(w, states, labels, |labels|);
      }
    }
  }
}
