/** What a step of the system is to one run, told by its label and the columns it finds. The arithmetic is written
    out here, apart from the functions that carry the statements out. */
module Occurrences {
  import opened Basics
  import opened Workflow
  import opened Rows
  import opened Protocol
  import opened Backoff

  /** Nanoseconds rounded down to whole milliseconds. */
  function Millis(d: nat): nat {
    d / 1_000_000 * 1_000_000
  }

  predicate Unfinished(run: Run) {
    run.state.Ready? || run.state.Leased? || run.state.Waiting?
  }

  /** The claim's row is leased under its token, and the lease ends after the present. */
  predicate Holding(s: Sys, t: Token) {
    && t in s.claims && s.claims[t].run in s.runs
    && var run := s.runs[s.claims[t].run];
       run.state.Leased? && run.token == Some(t) && run.leaseUntil.Some? && s.clock < run.leaseUntil.value
  }

  /* ---- the occurrences ---- */

  ghost predicate IsEnqueue(s: Sys, l: Label, r: RunId) {
    && l.Enqueue? && l.id == r && r !in s.runs
    && (l.dedup.Some? ==> forall q :: q in s.runs ==> s.runs[q].workflow.name != l.workflow.name || s.runs[q].dedup != l.dedup)
  }

  predicate IsClaim(l: Label, r: RunId) {
    l.ClaimRun? && l.id == r
  }

  predicate IsCancel(l: Label, r: RunId) {
    l.CancelRun? && l.id == r
  }

  predicate IsRecovery(l: Label, r: RunId) {
    l.RecoverLeases? && r in l.picked
  }

  predicate IsTimeout(l: Label, r: RunId) {
    l.PromoteTimedOut? && r in l.picked
  }

  /** The emission finds the run waiting on its key, with a deadline after the transaction's start. */
  predicate IsWake(s: Sys, l: Label, r: RunId) {
    && l.EmitCommit? && l.tx in s.emits && r in s.runs && s.runs[r].state.Waiting? && s.runs[r].waitKey == Some(s.emits[l.tx].key)
    && s.runs[r].waitDeadline.Some? && s.emits[l.tx].begin < s.runs[r].waitDeadline.value
  }

  /** The heartbeat sends the token the run is held under. */
  predicate IsRenewal(s: Sys, l: Label, r: RunId) {
    && l.RenewLeases? && r in s.runs && s.runs[r].token.Some? && s.runs[r].token.value in l.tokens
    && Holding(s, s.runs[r].token.value) && s.claims[s.runs[r].token.value].run == r
  }

  /** The holder's statement reaches the run. */
  predicate IsAccepted(s: Sys, l: Label, r: RunId) {
    l.Server? && Holding(s, l.token) && s.claims[l.token].run == r
  }

  predicate IsFailure(s: Sys, l: Label, r: RunId) {
    IsAccepted(s, l, r) && l.exec.ExecFail? && s.claims[l.token].fail.Some?
  }

  predicate IsDriven(s: Sys, l: Label, r: RunId) {
    IsAccepted(s, l, r) && l.exec.ExecDrive? && s.claims[l.token].drive.Some?
  }

  predicate IsSleep(s: Sys, l: Label, r: RunId) {
    IsDriven(s, l, r) && s.claims[l.token].drive.value.SleepUntil?
  }

  predicate IsFinish(s: Sys, l: Label, r: RunId) {
    IsDriven(s, l, r) && s.claims[l.token].drive.value.Finish?
  }

  predicate IsSettled(s: Sys, l: Label, r: RunId) {
    IsAccepted(s, l, r) && l.exec.WaitSettle? && s.claims[l.token].tx.Some?
  }

  predicate IsPark(s: Sys, l: Label, r: RunId) {
    IsSettled(s, l, r) && s.claims[l.token].tx.value.phase.Empty?
  }

  predicate IsStepCommit(s: Sys, l: Label, r: RunId) {
    && IsDriven(s, l, r) && s.claims[l.token].drive.value.Commit?
    && s.runs[r].cursor <= s.claims[l.token].drive.value.index
  }

  predicate IsDelivery(s: Sys, l: Label, r: RunId) {
    && IsSettled(s, l, r) && s.claims[l.token].tx.value.phase.Found?
    && s.runs[r].cursor <= s.claims[l.token].tx.value.index
  }

  /** What an accepted commit stores, where, and whether it ends the run. */
  datatype Stored = Stored(index: nat, value: Json, complete: bool)

  predicate IsCommit(s: Sys, l: Label, r: RunId) {
    IsStepCommit(s, l, r) || IsDelivery(s, l, r)
  }

  function CommitOf(s: Sys, l: Label, r: RunId): Stored
    requires IsCommit(s, l, r)
  {
    if IsStepCommit(s, l, r) then
      var sent := s.claims[l.token].drive.value;
      Stored(sent.index, sent.value, sent.complete)
    else
      var tx := s.claims[l.token].tx.value;
      Stored(tx.index, JObject(map["received" := tx.phase.event.payload]), tx.complete)
  }

  /* ---- one column at a time ---- */

  function StateAfter(s: Sys, l: Label, r: RunId): RunState
    requires r in s.runs
  {
    var run := s.runs[r];
    if IsClaim(l, r) then Leased
    else if IsSleep(s, l, r) || IsWake(s, l, r) || IsTimeout(l, r) then Ready
    else if IsPark(s, l, r) then RunState.Waiting
    else if IsFinish(s, l, r) || (IsCommit(s, l, r) && CommitOf(s, l, r).complete) then Completed
    else if IsFailure(s, l, r) then (if run.attempt + 1 < run.maxAttempts then Ready else Failed)
    else if IsRecovery(l, r) then (if run.leaseFailures + 1 < run.maxAttempts then Ready else Failed)
    else if IsCancel(l, r) && Unfinished(run) then Cancelled
    else run.state
  }

  function CursorAfter(s: Sys, l: Label, r: RunId): nat
    requires r in s.runs
  {
    if IsCommit(s, l, r) then CommitOf(s, l, r).index + 1
    else if IsSleep(s, l, r) then s.claims[l.token].drive.value.next
    else if IsFinish(s, l, r) then s.claims[l.token].drive.value.cursor
    else if IsPark(s, l, r) then s.claims[l.token].tx.value.index
    else s.runs[r].cursor
  }

  /** When the run becomes due by this step, if the step decides that. */
  function DueBy(s: Sys, l: Label, r: RunId): Option<Time>
    requires r in s.runs
  {
    var run := s.runs[r];
    if IsSleep(s, l, r) then Some(l.exec.now + Millis(s.claims[l.token].drive.value.duration))
    else if IsFailure(s, l, r) then Some(l.exec.now + RetryMillis(run.attempt + 1) * 1_000_000)
    else if IsRecovery(l, r) then Some(s.clock + RetryMillis(run.leaseFailures + 1) * 1_000_000)
    else if IsWake(s, l, r) then Some(s.emits[l.tx].begin)
    else if IsTimeout(l, r) then Some(l.now)
    else None
  }

  function AttemptAfter(s: Sys, l: Label, r: RunId): nat
    requires r in s.runs
  {
    s.runs[r].attempt + (if IsFailure(s, l, r) then 1 else 0)
  }

  function LeaseFailuresAfter(s: Sys, l: Label, r: RunId): nat
    requires r in s.runs
  {
    if IsRecovery(l, r) then s.runs[r].leaseFailures + 1
    else if IsCommit(s, l, r) || IsSleep(s, l, r) || IsPark(s, l, r) then 0
    else s.runs[r].leaseFailures
  }

  function ErrorAfter(s: Sys, l: Label, r: RunId): Option<string>
    requires r in s.runs
  {
    if IsFailure(s, l, r) then Some(s.claims[l.token].fail.value)
    else if IsRecovery(l, r) then Some("lease expired")
    else if IsCommit(s, l, r) || IsSleep(s, l, r) || IsPark(s, l, r) || IsFinish(s, l, r) || IsWake(s, l, r) then None
    else s.runs[r].lastError
  }

  function CheckpointsAfter(s: Sys, l: Label, r: RunId): map<nat, Json>
    requires r in s.runs
  {
    var run := s.runs[r];
    if IsCommit(s, l, r) then FirstStays(run.checkpoints, CommitOf(s, l, r).index, CommitOf(s, l, r).value)
    else if IsWake(s, l, r) then FirstStays(run.checkpoints, run.cursor, JObject(map["received" := s.emits[l.tx].payload]))
    else if IsTimeout(l, r) then FirstStays(run.checkpoints, run.cursor, JText("timed_out"))
    else run.checkpoints
  }

  function FirstStays(checkpoints: map<nat, Json>, p: nat, v: Json): map<nat, Json> {
    if p in checkpoints then checkpoints else checkpoints[p := v]
  }

  function TokenAfter(s: Sys, l: Label, r: RunId): Option<Token>
    requires r in s.runs
  {
    if !StateAfter(s, l, r).Leased? then None
    else if IsClaim(l, r) then Some(l.token)
    else s.runs[r].token
  }

  function LeaseAfter(w: World, s: Sys, l: Label, r: RunId): Option<Time>
    requires r in s.runs
  {
    if !StateAfter(s, l, r).Leased? then None
    else if IsClaim(l, r) || IsRenewal(s, l, r) then Some(s.clock + Millis(w.ttl))
    else s.runs[r].leaseUntil
  }

  function WaitKeyAfter(s: Sys, l: Label, r: RunId): Option<string>
    requires r in s.runs
  {
    if !StateAfter(s, l, r).Waiting? then None
    else if IsPark(s, l, r) then Some(s.claims[l.token].tx.value.key)
    else s.runs[r].waitKey
  }

  function DeadlineAfter(s: Sys, l: Label, r: RunId): Option<Time>
    requires r in s.runs
  {
    if !StateAfter(s, l, r).Waiting? then None
    else if IsPark(s, l, r) then Some(s.claims[l.token].tx.value.begin + Millis(s.claims[l.token].tx.value.timeout))
    else s.runs[r].waitDeadline
  }

  /** Every column of the run after the step. */
  predicate ColumnsFollow(w: World, s: Sys, l: Label, r: RunId, after: Run)
    requires r in s.runs
  {
    && after.state == StateAfter(s, l, r) && after.cursor == CursorAfter(s, l, r)
    && after.nextRunAt == (if DueBy(s, l, r).Some? then DueBy(s, l, r).value else s.runs[r].nextRunAt)
    && after.attempt == AttemptAfter(s, l, r) && after.leaseFailures == LeaseFailuresAfter(s, l, r)
    && after.lastError == ErrorAfter(s, l, r) && after.checkpoints == CheckpointsAfter(s, l, r)
    && after.token == TokenAfter(s, l, r) && after.leaseUntil == LeaseAfter(w, s, l, r)
    && after.waitKey == WaitKeyAfter(s, l, r) && after.waitDeadline == DeadlineAfter(s, l, r)
  }

  /** The new row's columns. */
  predicate AsEnqueued(l: Label, run: Run)
    requires l.Enqueue?
  {
    && run.workflow == l.workflow && run.queue == l.queue && run.maxAttempts == l.maxAttempts && run.input == l.input && run.dedup == l.dedup
  }

  predicate IsNew(l: Label, run: Run)
    requires l.Enqueue?
  {
    && AsEnqueued(l, run) && run.state.Ready? && run.nextRunAt == (if l.at.Some? then l.at.value else l.now)
    && run.cursor == 0 && run.attempt == 0 && run.leaseFailures == 0 && run.checkpoints == map[] && run.output.None?
    && run.lastError.None? && run.token.None? && run.leaseUntil.None? && run.waitKey.None? && run.waitDeadline.None?
  }
}
