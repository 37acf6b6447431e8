/** Why a run ended, why it waits and where each checkpoint comes from: the step of the trace that did it. */
module Causes {
  import opened Basics
  import opened Workflow
  import opened Rows
  import opened Worker
  import opened Protocol
  import opened SystemInvariant
  import opened Occurrences
  import opened Columns

  /* ---- ends ---- */

  predicate IsCompletion(s: Sys, l: Label, r: RunId) {
    IsFinish(s, l, r) || (IsCommit(s, l, r) && CommitOf(s, l, r).complete)
  }

  /** The failure or the lost lease reaches the limit. */
  predicate IsExhaustion(s: Sys, l: Label, r: RunId) {
    && r in s.runs
    && (|| (IsFailure(s, l, r) && s.runs[r].maxAttempts <= s.runs[r].attempt + 1)
        || (IsRecovery(l, r) && s.runs[r].maxAttempts <= s.runs[r].leaseFailures + 1))
  }

  predicate IsStop(s: Sys, l: Label, r: RunId) {
    IsCancel(l, r) && r in s.runs && Unfinished(s.runs[r])
  }

  /** The step that put the run into its terminal state. */
  predicate PutsInto(s: Sys, l: Label, r: RunId, state: RunState) {
    || (state.Completed? && IsCompletion(s, l, r))
    || (state.Failed? && IsExhaustion(s, l, r))
    || (state.Cancelled? && IsStop(s, l, r))
  }

  lemma EndStep(w: World, s: Sys, l: Label, r: RunId, after: Run, state: RunState)
    requires r in s.runs && ColumnsFollow(w, s, l, r, after) && state.Terminal()
    ensures PutsInto(s, l, r, state) && Enabled(w, s, l) ==> after.state == state
    ensures after.state == state ==> s.runs[r].state == state || PutsInto(s, l, r, state)
  {
    hide ColumnsFollow, CanMove, CanTxMove, CanEmitMove, CanExecute, CommitOf;
    assert after.state == StateAfter(s, l, r) by { FollowsState(w, s, l, r, after); }
  }

  lemma FollowsState(w: World, s: Sys, l: Label, r: RunId, after: Run)
    requires r in s.runs && ColumnsFollow(w, s, l, r, after)
    ensures after.state == StateAfter(s, l, r)
  {
  }

  /** A run is completed, failed or cancelled exactly when some step of the trace completed, exhausted or stopped it. */
  lemma EndsHaveCauses(w: World, states: seq<Sys>, labels: seq<Label>, i: nat, r: RunId, state: RunState)
    requires WorldOk(w) && IsTrace(w, states, labels) && i <= |labels| && r in states[i].runs && state.Terminal()
    ensures states[i].runs[r].state == state <==> exists k :: 0 <= k < i && PutsInto(states[k], labels[k], r, state)
  {
    hide Enabled, Apply, PutsInto;
    assert |states| == |labels| + 1;
    hide WorldOk, IsTrace;
    if states[i].runs[r].state == state {
      var k := EndingStep(w, states, labels, i, r, state);
    }
    forall k | 0 <= k < i && PutsInto(states[k], labels[k], r, state) ensures states[i].runs[r].state == state {
      EndedStays(w, states, labels, k, i, r, state);
    }
  }

  lemma EndedStays(w: World, states: seq<Sys>, labels: seq<Label>, k: nat, i: nat, r: RunId, state: RunState)
    requires WorldOk(w) && IsTrace(w, states, labels) && k < i <= |labels| && r in states[i].runs && state.Terminal()
    requires PutsInto(states[k], labels[k], r, state)
    ensures states[i].runs[r].state == state
  {
    hide Enabled, Apply, ColumnsFollow;
    assert Enabled(w, states[k], labels[k]);
    assert r in states[k].runs;
    hide PutsInto;
    StepColumns(w, states, labels, k, r);
    EndStep(w, states[k], labels[k], r, states[k + 1].runs[r], state);
    RowsLater(w, states, labels, k + 1, i, r);
  }

  lemma {:induction false} EndingStep(w: World, states: seq<Sys>, labels: seq<Label>, i: nat, r: RunId, state: RunState) returns (k: nat)
    requires WorldOk(w) && IsTrace(w, states, labels) && i <= |labels| && r in states[i].runs && state.Terminal()
    requires states[i].runs[r].state == state
    ensures k < i && PutsInto(states[k], labels[k], r, state)
  {
    hide Enabled, Apply, ColumnsFollow, PutsInto;
    assert |states| == |labels| + 1 && states[0].runs == map[];
    hide WorldOk, IsTrace;
    StepColumns(w, states, labels, i - 1, r);
    EndStep(w, states[i - 1], labels[i - 1], r, states[i].runs[r], state);
    if PutsInto(states[i - 1], labels[i - 1], r, state) {
      k := i - 1;
    } else {
      k := EndingStep(w, states, labels, i - 1, r, state);
    }
  }

  /* ---- checkpoints ---- */

  /** What the step writes at the position. */
  function WrittenAt(s: Sys, l: Label, r: RunId, p: nat): Option<Json> {
    if r !in s.runs then None
    else if IsCommit(s, l, r) && CommitOf(s, l, r).index == p then Some(CommitOf(s, l, r).value)
    else if IsWake(s, l, r) && s.runs[r].cursor == p then Some(JObject(map["received" := s.emits[l.tx].payload]))
    else if IsTimeout(l, r) && s.runs[r].cursor == p then Some(JText("timed_out"))
    else None
  }

  /** The first thing any step so far wrote there. */
  function FirstWritten(states: seq<Sys>, labels: seq<Label>, i: nat, r: RunId, p: nat): Option<Json>
    requires i <= |labels| < |states|
  {
    if i == 0 then None
    else
      var before := FirstWritten(states, labels, i - 1, r, p);
      if before.Some? then before else WrittenAt(states[i - 1], labels[i - 1], r, p)
  }

  lemma WriteStep(w: World, s: Sys, l: Label, r: RunId, after: Run, p: nat)
    requires r in s.runs && ColumnsFollow(w, s, l, r, after)
    ensures p in after.checkpoints <==> p in s.runs[r].checkpoints || WrittenAt(s, l, r, p).Some?
    ensures p in s.runs[r].checkpoints ==> after.checkpoints[p] == s.runs[r].checkpoints[p]
    ensures p !in s.runs[r].checkpoints && WrittenAt(s, l, r, p).Some? ==> after.checkpoints[p] == WrittenAt(s, l, r, p).value
  {
    hide Holding;
  }

  /** A position holds a checkpoint exactly when something was written there, and holds the first thing written. */
  lemma {:induction false} CheckpointIsFirstWrite(w: World, states: seq<Sys>, labels: seq<Label>, i: nat, r: RunId, p: nat)
    requires WorldOk(w) && IsTrace(w, states, labels) && i <= |labels|
    ensures FirstWritten(states, labels, i, r, p) ==
            if r in states[i].runs && p in states[i].runs[r].checkpoints then Some(states[i].runs[r].checkpoints[p]) else None
  {
    hide Enabled, Apply;
    assert |states| == |labels| + 1;
    if i == 0 {
    } else {
      hide WorldOk, IsTrace, ColumnsFollow, WrittenAt;
      StepColumns(w, states, labels, i - 1, r);
      CheckpointIsFirstWrite(w, states, labels, i - 1, r, p);
      if r in states[i - 1].runs {
        WriteStep(w, states[i - 1], labels[i - 1], r, states[i].runs[r], p);
      } else {
        assert WrittenAt(states[i - 1], labels[i - 1], r, p).None?;
      }
    }
  }
}
