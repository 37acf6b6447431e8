/** One row of workflow_runs together with its step_checkpoints, and what each SQL
    statement does to it. A statement whose WHERE clause rejects the row leaves it alone. */
module Rows {
  import opened Basics
  import opened Workflow
  import Backoff

  type Token = nat

  datatype RunState = Ready | Leased | Waiting | Completed | Failed | Cancelled {
    predicate Terminal() {
      Completed? || Failed? || Cancelled?
    }
  }

  datatype Run = Run(
    workflow: WorkflowKey,
    queue: string,
    state: RunState,
    cursor: nat,
    attempt: nat,
    maxAttempts: nat,
    leaseFailures: nat,
    nextRunAt: Time,
    token: Option<Token>,
    leaseUntil: Option<Time>,
    waitKey: Option<string>,
    waitDeadline: Option<Time>,
    input: Json,
    output: Option<Json>,
    dedup: Option<string>,
    lastError: Option<string>,
    checkpoints: map<nat, Json>
  )

  /** The row insertRun creates. */
  function Inserted(workflow: WorkflowKey, queue: string, maxAttempts: nat, at: Time, input: Json, dedup: Option<string>): Run {
    Run(workflow, queue, Ready, 0, 0, maxAttempts, 0, at, None, None, None, None, input, None, dedup, None, map[])
  }

  /** The row is leased, its token column equals `token`, and its lease ends strictly after `clock`. */
  predicate Fence(run: Run, token: Token, clock: Time) {
    run.state.Leased? && run.token == Some(token) && run.leaseUntil.Some? && run.leaseUntil.value > clock
  }

  predicate Claimable(run: Run, now: Time) {
    run.state.Ready? && run.nextRunAt <= now
  }

  function Claim(run: Run, token: Token, clock: Time, ttl: nat): Run
  {
    run.(state := Leased, token := Some(token), leaseUntil := Some(clock + WholeMillis(ttl)))
  }

  function Renew(run: Run, clock: Time, ttl: nat): Run
  {
    run.(leaseUntil := Some(clock + WholeMillis(ttl)))
  }

  /** What commitStep answers: no row, or the value that had been stored before, if any. */
  datatype CommitReply = NoRow | Advanced(existing: Option<Json>)

  predicate CommitMatches(run: Run, token: Token, clock: Time, index: nat) {
    Fence(run, token, clock) && run.cursor <= index
  }

  function CommitStep(run: Run, token: Token, clock: Time, index: nat, value: Json, complete: bool): (r: (Run, CommitReply))
    ensures r.1.NoRow? <==> !CommitMatches(run, token, clock, index)
    ensures r.1.NoRow? ==> r.0 == run
  {
    if !CommitMatches(run, token, clock, index) then (run, NoRow)
    else
      var existing := if index in run.checkpoints then Some(run.checkpoints[index]) else None;
      var stored := if existing.Some? then existing.value else value;
      var advanced := run.(cursor := index + 1, lastError := None, leaseFailures := 0, output := None,
                           checkpoints := run.checkpoints[index := stored]);
      (if complete then advanced.(state := Completed, output := Some(stored), token := None, leaseUntil := None)
       else advanced,
       Advanced(existing))
  }

  function CompleteRun(run: Run, token: Token, clock: Time, cursor: nat, output: Option<Json>): Run {
    if !Fence(run, token, clock) then run
    else run.(state := Completed, cursor := cursor, output := output, token := None, leaseUntil := None, lastError := None)
  }

  function ParkSleep(run: Run, token: Token, clock: Time, now: Time, next: nat, duration: nat): Run
  {
    if !Fence(run, token, clock) then run
    else run.(state := Ready, cursor := next, nextRunAt := now + WholeMillis(duration), token := None, leaseUntil := None,
              lastError := None, leaseFailures := 0)
  }

  /** Behind the fence: state Waiting with key and deadline set, the lease columns cleared, and `cursor := index`,
      the position of the wait itself; no checkpoint is written here. */
  function ParkWait(run: Run, token: Token, clock: Time, now: Time, index: nat, key: string, timeout: nat): Run
  {
    if !Fence(run, token, clock) then run
    else run.(state := Waiting, cursor := index, waitKey := Some(key), waitDeadline := Some(now + WholeMillis(timeout)),
              token := None, leaseUntil := None, lastError := None, leaseFailures := 0)
  }

  function FailOrRetry(run: Run, token: Token, clock: Time, now: Time, attempt: nat, error: string): Run {
    if !Fence(run, token, clock) then run
    else run.(state := if attempt >= run.maxAttempts then Failed else Ready, attempt := attempt,
              nextRunAt := now + Backoff.AfterAttempt(attempt), lastError := Some(error), token := None, leaseUntil := None)
  }

  predicate Expired(run: Run, statement: Time) {
    run.state.Leased? && run.leaseUntil.Some? && run.leaseUntil.value < statement
  }

  function Recover(run: Run, clock: Time): Run {
    run.(state := if run.leaseFailures + 1 >= run.maxAttempts then Failed else Ready,
         leaseFailures := run.leaseFailures + 1,
         nextRunAt := clock + Backoff.AfterLeaseFailure(run.leaseFailures),
         token := None, leaseUntil := None, lastError := Some("lease expired"))
  }

  predicate Awaits(run: Run, key: string, now: Time) {
    run.state.Waiting? && run.waitKey == Some(key) && run.waitDeadline.Some? && run.waitDeadline.value > now
  }

  /** Recording an outcome never replaces a checkpoint that is already there. */
  function Recorded(run: Run, outcome: Json): map<nat, Json> {
    if run.cursor in run.checkpoints then run.checkpoints else run.checkpoints[run.cursor := outcome]
  }

  function Wake(run: Run, payload: Json, now: Time): Run {
    run.(state := Ready, nextRunAt := now, waitKey := None, waitDeadline := None, lastError := None,
         checkpoints := Recorded(run, Received(payload)))
  }

  predicate Overdue(run: Run, statement: Time) {
    run.state.Waiting? && run.waitDeadline.Some? && run.waitDeadline.value <= statement
  }

  function TimeOut(run: Run, now: Time): Run {
    run.(state := Ready, nextRunAt := now, waitKey := None, waitDeadline := None,
         checkpoints := Recorded(run, TIMED_OUT))
  }

  function Cancel(run: Run): Run {
    if run.state.Terminal() then run
    else run.(state := Cancelled, token := None, leaseUntil := None, waitKey := None, waitDeadline := None)
  }

  /** A commit that fence or cursor rejects changes nothing and says so. After any other the position holds the
      first value ever stored there, every other checkpoint is kept, the cursor is past it, the reply lets the worker
      reconstruct the value, and a completing commit outputs it and gives the lease back. */
  lemma FirstCheckpointWins(run: Run, token: Token, clock: Time, index: nat, value: Json, complete: bool)
    ensures var (after, reply) := CommitStep(run, token, clock, index, value, complete);
            if !CommitMatches(run, token, clock, index) then after == run && reply.NoRow?
            else
              && reply.Advanced? && (reply.existing.Some? <==> index in run.checkpoints)
              && after.checkpoints.Keys == run.checkpoints.Keys + {index} && after.cursor == index + 1
              && (forall p :: p in run.checkpoints ==> after.checkpoints[p] == run.checkpoints[p])
              && after.checkpoints[index] == (if reply.existing.Some? then reply.existing.value else value)
              && (if complete then after.state.Completed? && after.output == Some(after.checkpoints[index]) && after.token.None?
                  else after.state.Leased? && after.output.None? && after.token == Some(token))
  {
  }
}
