/** When a run can be claimed: after every enqueueing, sleep, failure, lost lease, wake and timeout, neither earlier
    nor later than its delay says, and by workers of its queue only. */
module Schedule {
  import opened Basics
  import opened Workflow
  import opened Rows
  import opened Worker
  import opened RunInvariant
  import opened Protocol
  import opened CoreInvariant
  import opened LeaseInvariant
  import opened EventInvariant
  import opened Tables
  import opened SystemInvariant
  import opened Occurrences
  import opened Columns
  import opened Theorems
  import opened Progress
  import opened Backoff

  /** The step makes the run ready, and this is when it is due. */
  ghost function ReadyFrom(s: Sys, l: Label, r: RunId): Option<Time> {
    if IsEnqueue(s, l, r) then Some(if l.at.Some? then l.at.value else l.now)
    else if r in s.runs && StateAfter(s, l, r).Ready? then DueBy(s, l, r)
    else None
  }

  /** Step `i` made the run due at `due`, and until state `j` nobody claimed or cancelled it. */
  ghost predicate DueSince(states: seq<Sys>, labels: seq<Label>, i: nat, j: nat, r: RunId, due: Time) {
    && i < j <= |labels| < |states| && ReadyFrom(states[i], labels[i], r) == Some(due)
    && forall k :: i < k < j ==> !IsClaim(labels[k], r) && !IsCancel(labels[k], r)
  }

  lemma ReadyStep(w: World, s: Sys, l: Label, r: RunId, after: Run)
    requires r in s.runs && ColumnsFollow(w, s, l, r, after) && Enabled(w, s, l)
    ensures ReadyFrom(s, l, r).Some? ==> after.state.Ready? && after.nextRunAt == ReadyFrom(s, l, r).value
    ensures ReadyFrom(s, l, r).None? && after.state.Ready? ==> s.runs[r].state.Ready? && after.nextRunAt == s.runs[r].nextRunAt
    ensures s.runs[r].state.Ready? && !IsClaim(l, r) && !IsCancel(l, r) ==>
              after.state.Ready? && after.nextRunAt == s.runs[r].nextRunAt && ReadyFrom(s, l, r).None?
    ensures s.runs[r].state.Ready? && (IsClaim(l, r) || IsCancel(l, r)) ==> !after.state.Ready?
  {
    hide CanMove, CanTxMove, CanEmitMove, CanExecute, RetryMillis, Millis, CheckpointsAfter, CursorAfter, LeaseFailuresAfter, ErrorAfter,
         TokenAfter, LeaseAfter, WaitKeyAfter, DeadlineAfter, AttemptAfter;
  }

  /** Such a run is ready and due then, still. */
  lemma {:induction false} DueStays(w: World, states: seq<Sys>, labels: seq<Label>, i: nat, j: nat, r: RunId, due: Time)
    requires WorldOk(w) && IsTrace(w, states, labels) && DueSince(states, labels, i, j, r, due)
    ensures r in states[j].runs && states[j].runs[r].state.Ready? && states[j].runs[r].nextRunAt == due
    decreases j
  {
    hide Apply, ColumnsFollow, ReadyFrom;
    assert Enabled(w, states[j - 1], labels[j - 1]);
    hide Enabled;
    StepColumns(w, states, labels, j - 1, r);
    if j == i + 1 {
      if r in states[i].runs {
        ReadyStep(w, states[i], labels[i], r, states[j].runs[r]);
      } else {
        NewIsReady(states[i], labels[i], r, states[j].runs);
      }
    } else {
      DueStays(w, states, labels, i, j - 1, r, due);
      ReadyStep(w, states[j - 1], labels[j - 1], r, states[j].runs[r]);
    }
  }

  lemma NewIsReady(s: Sys, l: Label, r: RunId, runs: map<RunId, Run>)
    requires r !in s.runs && (r in runs <==> IsEnqueue(s, l, r)) && (r in runs ==> IsNew(l, runs[r]))
    ensures ReadyFrom(s, l, r).Some? <==> r in runs
    ensures r in runs ==> runs[r].state.Ready? && ReadyFrom(s, l, r) == Some(runs[r].nextRunAt)
  {
  }

  /** And every ready run is due since some step. */
  lemma {:induction false} ReadyIsDue(w: World, states: seq<Sys>, labels: seq<Label>, j: nat, r: RunId) returns (i: nat)
    requires WorldOk(w) && IsTrace(w, states, labels) && j <= |labels| && r in states[j].runs && states[j].runs[r].state.Ready?
    ensures DueSince(states, labels, i, j, r, states[j].runs[r].nextRunAt)
  {
    hide Apply, ColumnsFollow, ReadyFrom, Enabled;
    assert |states| == |labels| + 1 && states[0].runs == map[];
    assert Enabled(w, states[j - 1], labels[j - 1]);
    hide IsTrace, WorldOk;
    StepColumns(w, states, labels, j - 1, r);
    if r in states[j - 1].runs {
      ReadyStep(w, states[j - 1], labels[j - 1], r, states[j].runs[r]);
      if ReadyFrom(states[j - 1], labels[j - 1], r).Some? {
        i := j - 1;
      } else {
        i := ReadyIsDue(w, states, labels, j - 1, r);
      }
    } else {
      NewIsReady(states[j - 1], labels[j - 1], r, states[j].runs);
      i := j - 1;
    }
  }

  /** The queue the run was enqueued on. */
  ghost predicate EnqueuedOn(states: seq<Sys>, labels: seq<Label>, j: nat, r: RunId, queue: string)
    requires j <= |labels| < |states|
  {
    exists e :: 0 <= e < j && IsEnqueue(states[e], labels[e], r) && labels[e].queue == queue
  }

  ghost predicate DueBefore(states: seq<Sys>, labels: seq<Label>, j: nat, r: RunId, now: Time) {
    exists i, due :: DueSince(states, labels, i, j, r, due) && due <= now
  }

  /** A worker can claim a run exactly when some step made it due by then and nobody claimed or cancelled it since, and
      the run was enqueued on the worker's queue. */
  lemma ClaimableExactly(w: World, states: seq<Sys>, labels: seq<Label>, j: nat, r: RunId, t: Token, started: Time, now: Time, queue: string)
    requires WorldOk(w) && IsTrace(w, states, labels) && j <= |labels|
    ensures Enabled(w, states[j], ClaimRun(r, t, started, now, queue)) <==>
            && t !in states[j].claims && started <= now <= states[j].clock
            && DueBefore(states, labels, j, r, now) && EnqueuedOn(states, labels, j, r, queue)
  {
    hide Apply;
    assert |states| == |labels| + 1;
    hide WorldOk, IsTrace, IsEnqueue, DueSince, RunOk;
    if r in states[j].runs {
      RowsAreOk(w, states, labels, j, r);
      var e := EnqueuedOnce(w, states, labels, j, r);
      assert EnqueuedOn(states, labels, j, r, queue) <==> states[j].runs[r].queue == queue;
      if states[j].runs[r].state.Ready? {
        var i := ReadyIsDue(w, states, labels, j, r);
      }
    }
    forall i, due | DueSince(states, labels, i, j, r, due)
      ensures r in states[j].runs && states[j].runs[r].state.Ready? && states[j].runs[r].nextRunAt == due
    {
      DueStays(w, states, labels, i, j, r, due);
    }
  }

  /* ---- the delays ---- */

  lemma CancelledStays(w: World, states: seq<Sys>, labels: seq<Label>, k: nat, j: nat, r: RunId)
    requires WorldOk(w) && IsTrace(w, states, labels) && k < j <= |labels| && r in states[k].runs && IsCancel(labels[k], r)
    ensures r in states[j].runs && states[j].runs[r].state.Terminal()
  {
    hide Apply, Enabled;
    StepColumns(w, states, labels, k, r);
    RowsLater(w, states, labels, k + 1, j, r);
  }

  /** The next claim of a run that was made due comes no earlier. */
  lemma NextClaimIsDue(w: World, states: seq<Sys>, labels: seq<Label>, i: nat, j: nat, r: RunId)
    requires WorldOk(w) && IsTrace(w, states, labels) && i < j < |labels| && ReadyFrom(states[i], labels[i], r).Some? && IsClaim(labels[j], r)
    requires forall k :: i < k < j ==> !IsClaim(labels[k], r)
    ensures ReadyFrom(states[i], labels[i], r).value <= labels[j].now
  {
    hide Apply;
    assert Enabled(w, states[j], labels[j]);
    assert DueSince(states, labels, i, i + 1, r, ReadyFrom(states[i], labels[i], r).value);
    DueStays(w, states, labels, i, i + 1, r, ReadyFrom(states[i], labels[i], r).value);
    forall k | i < k < j ensures !IsCancel(labels[k], r) {
      if IsCancel(labels[k], r) {
        RowsLater(w, states, labels, i + 1, k, r);
        CancelledStays(w, states, labels, k, j, r);
      }
    }
    DueStays(w, states, labels, i, j, r, ReadyFrom(states[i], labels[i], r).value);
  }

  /** From its due time on, and not before, any worker of its queue can claim such a run. */
  lemma DueDecides(w: World, states: seq<Sys>, labels: seq<Label>, i: nat, j: nat, r: RunId, due: Time, t: Token, started: Time, now: Time)
    requires WorldOk(w) && IsTrace(w, states, labels) && DueSince(states, labels, i, j, r, due)
    ensures r in states[j].runs
    ensures Enabled(w, states[j], ClaimRun(r, t, started, now, states[j].runs[r].queue)) <==>
            t !in states[j].claims && started <= now <= states[j].clock && due <= now
  {
    hide Apply;
    assert |states| == |labels| + 1;
    hide IsTrace, WorldOk, RunOk;
    DueStays(w, states, labels, i, j, r, due);
    RowsAreOk(w, states, labels, j, r);
  }

  /** The sleep the statement carries out is the next operation of the run. */
  lemma SleepIsNext(w: World, states: seq<Sys>, labels: seq<Label>, i: nat, r: RunId)
    requires WorldOk(w) && IsTrace(w, states, labels) && i < |labels| && IsSleep(states[i], labels[i], r)
    ensures states[i].runs[r].workflow in w.defs
    ensures var ops := w.defs[states[i].runs[r].workflow].ops;
            var sent := states[i].claims[labels[i].token].drive.value;
            && 1 <= sent.next <= |ops| && ops[sent.next - 1].Sleep? && sent.duration == ops[sent.next - 1].duration
            && states[i].runs[r].cursor < sent.next
            && forall q :: states[i].runs[r].cursor <= q < sent.next - 1 ==> q in states[i].runs[r].checkpoints
  {
    hide Enabled, Apply;
    assert |states| == |labels| + 1;
    hide IsTrace, WorldOk;
    ClaimsAreOk(w, states, labels, i, labels[i].token);
  }

  /** A sleep lasts its duration in whole milliseconds from the start of the transaction that parked the run: until it
      is over nobody can claim the run, and from then on any worker of its queue can. */
  lemma SleepLasts(w: World, states: seq<Sys>, labels: seq<Label>, i: nat, j: nat, r: RunId, t: Token, started: Time, now: Time)
    requires WorldOk(w) && IsTrace(w, states, labels) && i < j <= |labels| && IsSleep(states[i], labels[i], r)
    requires forall k :: i < k < j ==> !IsClaim(labels[k], r) && !IsCancel(labels[k], r)
    ensures states[i].runs[r].workflow in w.defs && r in states[j].runs
    ensures var ops := w.defs[states[i].runs[r].workflow].ops;
            var p := states[i].claims[labels[i].token].drive.value.next - 1;
            && 0 <= p < |ops| && ops[p].Sleep? && states[j].runs[r].cursor == p + 1
            && (Enabled(w, states[j], ClaimRun(r, t, started, now, states[j].runs[r].queue)) <==>
                && t !in states[j].claims && started <= now <= states[j].clock
                && labels[i].exec.now + ops[p].duration / 1_000_000 * 1_000_000 <= now)
  {
    hide Apply, Enabled;
    assert |states| == |labels| + 1;
    SleepIsNext(w, states, labels, i, r);
    StepColumns(w, states, labels, i, r);
    hide IsTrace, WorldOk, IsEnqueue;
    var due := labels[i].exec.now + Millis(states[i].claims[labels[i].token].drive.value.duration);
    assert DueSince(states, labels, i, j, r, due);
    DueDecides(w, states, labels, i, j, r, due, t, started, now);
    ReadyKeepsCursor(w, states, labels, i + 1, j, r);
  }

  lemma {:induction false} ReadyKeepsCursor(w: World, states: seq<Sys>, labels: seq<Label>, i: nat, j: nat, r: RunId)
    requires WorldOk(w) && IsTrace(w, states, labels) && i <= j <= |labels| && r in states[i].runs && states[i].runs[r].state.Ready?
    requires forall k :: i <= k < j ==> !IsClaim(labels[k], r) && !IsCancel(labels[k], r)
    ensures r in states[j].runs && states[j].runs[r].state.Ready? && states[j].runs[r].cursor == states[i].runs[r].cursor
    decreases j
  {
    hide Apply;
    if i == j {
    } else {
      ReadyKeepsCursor(w, states, labels, i, j - 1, r);
      assert Enabled(w, states[j - 1], labels[j - 1]);
      StepColumns(w, states, labels, j - 1, r);
    }
  }

  /** After the n-th recorded failure of a run, below its limit, it waits the n-th delay from the start of the
      transaction that recorded it, and no longer. */
  lemma RetryWaits(w: World, states: seq<Sys>, labels: seq<Label>, i: nat, j: nat, r: RunId, t: Token, started: Time, now: Time)
    requires WorldOk(w) && IsTrace(w, states, labels) && i < j <= |labels| && IsFailure(states[i], labels[i], r)
    requires forall k :: i < k < j ==> !IsClaim(labels[k], r) && !IsCancel(labels[k], r)
    requires FailureCount(states, labels[..i + 1], r) < states[i].runs[r].maxAttempts
    ensures r in states[j].runs
    ensures Enabled(w, states[j], ClaimRun(r, t, started, now, states[j].runs[r].queue)) <==>
            && t !in states[j].claims && started <= now <= states[j].clock
            && labels[i].exec.now + RetryMillis(FailureCount(states, labels[..i + 1], r)) * 1_000_000 <= now
  {
    hide Apply, Enabled, FailureCount, RetryMillis;
    assert |states| == |labels| + 1;
    StepColumns(w, states, labels, i, r);
    AttemptCountsFailures(w, states, labels, i + 1, r);
    hide IsTrace, WorldOk, IsEnqueue;
    var due := labels[i].exec.now + RetryMillis(states[i].runs[r].attempt + 1) * 1_000_000;
    assert DueSince(states, labels, i, j, r, due);
    DueDecides(w, states, labels, i, j, r, due, t, started, now);
  }

  /** After the n-th lease lost in a row, below the limit, the run waits the n-th delay from the clock of its recovery,
      and no longer. */
  lemma RecoveryWaits(w: World, states: seq<Sys>, labels: seq<Label>, i: nat, j: nat, r: RunId, t: Token, started: Time, now: Time)
    requires WorldOk(w) && IsTrace(w, states, labels) && i < j <= |labels| && IsRecovery(labels[i], r) && r in states[i].runs
    requires forall k :: i < k < j ==> !IsClaim(labels[k], r) && !IsCancel(labels[k], r)
    requires RecoveriesInARow(states, labels, i + 1, r) < states[i].runs[r].maxAttempts
    ensures r in states[j].runs
    ensures Enabled(w, states[j], ClaimRun(r, t, started, now, states[j].runs[r].queue)) <==>
            && t !in states[j].claims && started <= now <= states[j].clock
            && states[i].clock + RetryMillis(RecoveriesInARow(states, labels, i + 1, r)) * 1_000_000 <= now
  {
    hide Apply, Enabled, RecoveriesInARow, RetryMillis;
    assert |states| == |labels| + 1;
    StepColumns(w, states, labels, i, r);
    LeaseFailuresCountRecoveries(w, states, labels, i + 1, r);
    hide IsTrace, WorldOk, IsEnqueue;
    var due := states[i].clock + RetryMillis(states[i].runs[r].leaseFailures + 1) * 1_000_000;
    assert DueSince(states, labels, i, j, r, due);
    DueDecides(w, states, labels, i, j, r, due, t, started, now);
  }

  lemma EmittersBegan(w: World, states: seq<Sys>, labels: seq<Label>, i: nat, x: nat)
    requires WorldOk(w) && IsTrace(w, states, labels) && i <= |labels| && x in states[i].emits
    ensures states[i].emits[x].begin <= states[i].clock
  {
    hide Apply, Enabled;
    assert |states| == |labels| + 1;
    Reachable(w, states, labels, i);
    hide IsTrace, WorldOk, CoreOk, LeaseOk, DedupOk, LocksOk, TxsOk, EventRows, IdsOk;
  }

  /** A wake or a timeout makes the run due at once. */
  lemma SettledIsDue(w: World, states: seq<Sys>, labels: seq<Label>, i: nat, r: RunId)
    requires WorldOk(w) && IsTrace(w, states, labels) && i < |labels| && r in states[i].runs
    requires IsWake(states[i], labels[i], r) || IsTimeout(labels[i], r)
    ensures ReadyFrom(states[i], labels[i], r).Some? && ReadyFrom(states[i], labels[i], r).value <= states[i].clock
  {
    hide Apply, CanMove, CanTxMove, CanEmitMove, CanExecute;
    assert Enabled(w, states[i], labels[i]);
    if IsWake(states[i], labels[i], r) {
      EmittersBegan(w, states, labels, i, labels[i].tx);
    }
  }
}
