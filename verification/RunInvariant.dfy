/** What holds of every run row, and what every statement keeps of it. */
module RunInvariant {
  import opened Basics
  import opened Workflow
  import opened Rows

  /** Leased exactly with lease fields, waiting exactly with wait fields. */
  ghost predicate FieldsOk(run: Run) {
    && (run.state.Leased? <==> run.token.Some?)
    && (run.state.Leased? <==> run.leaseUntil.Some?)
    && (run.state.Waiting? <==> run.waitKey.Some?)
    && (run.state.Waiting? <==> run.waitDeadline.Some?)
  }

  /** The checkpoints are exactly the recording positions below the cursor, plus possibly
      the settled wait the cursor still stands on. */
  ghost predicate ProgressOk(def: Definition, run: Run) {
    && run.cursor <= |def.ops|
    && (forall p :: 0 <= p < run.cursor && Records(def.ops[p]) ==> p in run.checkpoints)
    && (forall p :: p in run.checkpoints ==>
          p < |def.ops| && Records(def.ops[p]) &&
          (p < run.cursor || (p == run.cursor && def.ops[p].Wait? && !run.state.Waiting?)))
    && (run.state.Waiting? ==> run.cursor < |def.ops| && def.ops[run.cursor].Wait?)
    && (run.state.Completed? ==> run.cursor == |def.ops|)
  }

  ghost predicate CountersOk(run: Run) {
    && run.attempt <= run.maxAttempts && run.leaseFailures <= run.maxAttempts
    && (run.state.Failed? <==> run.attempt == run.maxAttempts || run.leaseFailures == run.maxAttempts)
  }

  function StoredOutput(def: Definition, checkpoints: map<nat, Json>): Option<Json> {
    if 0 <= def.outputIndex && def.outputIndex in checkpoints then Some(checkpoints[def.outputIndex]) else None
  }

  ghost predicate OutputOk(def: Definition, run: Run) {
    run.output == if run.state.Completed? then StoredOutput(def, run.checkpoints) else None
  }

  /** A step's checkpoint is something the step may return in the context its position
      determines; a wait's checkpoint is an outcome. */
  ghost predicate JustifiedAt(def: Definition, id: RunId, input: Json, checkpoints: map<nat, Json>, p: nat)
    requires p in checkpoints
  {
    && p < |def.ops| && Records(def.ops[p])
    && (def.ops[p].Step? ==> def.ops[p].may(ContextAt(def, id, input, checkpoints, p), checkpoints[p]))
    && (def.ops[p].Wait? ==> IsOutcome(checkpoints[p]))
  }

  ghost predicate Justified(def: Definition, id: RunId, run: Run) {
    forall p :: p in run.checkpoints ==> JustifiedAt(def, id, run.input, run.checkpoints, p)
  }

  ghost predicate RunOk(def: Definition, id: RunId, run: Run) {
    && run.workflow == KeyOf(def)
    && FieldsOk(run) && ProgressOk(def, run) && CountersOk(run) && OutputOk(def, run) && Justified(def, id, run)
  }

  /** Position `i` is the next one to be finished: everything from the cursor up to it is
      settled, and it is not. */
  ghost predicate Frontier(def: Definition, run: Run, i: nat) {
    && run.cursor <= i <= |def.ops|
    && (forall p :: run.cursor <= p < i ==> p in run.checkpoints)
    && i !in run.checkpoints
  }

  /* ---- progress measure ---- */

  function Remaining(def: Definition, run: Run): int {
    |def.ops| - run.cursor - (if run.cursor in run.checkpoints then 1 else 0)
  }

  /** Unfinished positions, with a registered wait counted as half done. */
  function Work(def: Definition, run: Run): int {
    2 * Remaining(def, run) - (if run.state.Waiting? then 1 else 0)
  }

  function Rank(state: RunState): nat {
    match state
    case Ready => 2
    case Leased => 1
    case _ => 0
  }

  /** `after` is closer to the end than `run`: it is terminal, or the tuple (attempts left, work,
      lease failures left, rank) is lexicographically smaller. */
  ghost predicate Closer(def: Definition, run: Run, after: Run) {
    && !run.state.Terminal()
    && (|| after.state.Terminal()
        || after.attempt > run.attempt
        || (after.attempt == run.attempt &&
            (|| Work(def, after) < Work(def, run)
             || (Work(def, after) == Work(def, run) &&
                 (|| after.leaseFailures > run.leaseFailures
                  || (after.leaseFailures == run.leaseFailures && Rank(after.state) < Rank(run.state)))))))
  }

  ghost predicate SameIdentity(run: Run, after: Run) {
    && after.workflow == run.workflow && after.queue == run.queue && after.maxAttempts == run.maxAttempts
    && after.input == run.input && after.dedup == run.dedup
  }

  ghost predicate Keeps(before: map<nat, Json>, after: map<nat, Json>) {
    forall p :: p in before ==> p in after && after[p] == before[p]
  }

  /** Only the lease was extended. */
  ghost predicate OnlyRenewed(run: Run, after: Run) {
    run.state.Leased? && after.leaseUntil.Some? && after == run.(leaseUntil := after.leaseUntil)
  }

  /** What any single step may do to a run row. */
  ghost predicate Evolves(def: Definition, run: Run, after: Run) {
    && SameIdentity(run, after)
    && Keeps(run.checkpoints, after.checkpoints)
    && run.cursor <= after.cursor
    && run.attempt <= after.attempt
    && (after == run || OnlyRenewed(run, after) || Closer(def, run, after))
  }

  /* ---- what the statements keep ---- */

  lemma JustifiedExtends(def: Definition, id: RunId, run: Run, i: nat, v: Json, more: map<nat, Json>)
    requires Justified(def, id, run) && i !in run.checkpoints && more == run.checkpoints[i := v]
    requires forall p :: p in run.checkpoints ==> p < i
    requires i < |def.ops| && Records(def.ops[i])
    requires def.ops[i].Step? ==> def.ops[i].may(ContextAt(def, id, run.input, run.checkpoints, i), v)
    requires def.ops[i].Wait? ==> IsOutcome(v)
    ensures forall p :: p in more ==> JustifiedAt(def, id, run.input, more, p)
  {
    forall p | p in more
      ensures JustifiedAt(def, id, run.input, more, p)
    {
      assert p != i ==> JustifiedAt(def, id, run.input, run.checkpoints, p);
      ContextDependsBelow(def, id, run.input, run.checkpoints, more, p);
    }
  }

  /** At the frontier nothing is checkpointed at or above the position. */
  lemma FrontierIsTop(def: Definition, id: RunId, run: Run, i: nat)
    requires RunOk(def, id, run) && Frontier(def, run, i)
    ensures forall p :: p in run.checkpoints ==> p < i
    ensures forall p :: 0 <= p < i && Records(def.ops[p]) ==> p in run.checkpoints
    ensures i == run.cursor || (i == run.cursor + 1 && run.cursor in run.checkpoints)
    ensures Remaining(def, run) == |def.ops| - i
  {
    assert run.cursor + 1 !in run.checkpoints;
  }

  ghost predicate MayRecord(def: Definition, id: RunId, run: Run, i: nat, v: Json) {
    && i < |def.ops| && Records(def.ops[i])
    && (def.ops[i].Step? ==> def.ops[i].may(ContextAt(def, id, run.input, run.checkpoints, i), v))
    && (def.ops[i].Wait? ==> IsOutcome(v))
  }

  /** The positions after a value was recorded at the frontier. */
  lemma CommitProgress(def: Definition, run: Run, i: nat, v: Json, after: Run)
    requires ProgressOk(def, run) && run.state.Leased? && i < |def.ops| && Records(def.ops[i]) && i !in run.checkpoints && run.cursor <= i
    requires forall p :: 0 <= p < i && Records(def.ops[p]) ==> p in run.checkpoints
    requires forall p :: p in run.checkpoints ==> p < i
    requires after.checkpoints == run.checkpoints[i := v] && after.cursor == i + 1 && !after.state.Waiting?
    requires after.state.Completed? ==> i + 1 == |def.ops|
    ensures ProgressOk(def, after)
  {
    assert forall p :: p in after.checkpoints ==> p == i || p in run.checkpoints;
  }

  lemma CommitWork(def: Definition, run: Run, i: nat, after: Run)
    requires i < |def.ops| && !run.state.Waiting? && Remaining(def, run) == |def.ops| - i && after.cursor == i + 1
    ensures Work(def, after) < Work(def, run)
  {
  }

  lemma LastIsOutput(def: Definition, i: nat)
    requires WellFormed(def) && i < |def.ops| && Records(def.ops[i])
    ensures i + 1 == |def.ops| ==> def.outputIndex == i
  {
  }

  /** What a commit at the frontier does to the columns. */
  lemma CommitFields(run: Run, token: Token, clock: Time, i: nat, v: Json, complete: bool)
    requires Fence(run, token, clock) && run.cursor <= i && i !in run.checkpoints
    ensures var (after, reply) := CommitStep(run, token, clock, i, v, complete);
            && reply == Advanced(None) && after.checkpoints == run.checkpoints[i := v] && after.cursor == i + 1
            && SameIdentity(run, after) && Keeps(run.checkpoints, after.checkpoints)
            && after.attempt == run.attempt && after.leaseFailures == 0 && after.waitKey == run.waitKey && after.waitDeadline == run.waitDeadline
            && (if complete then after.state == Completed && after.output == Some(v) && after.token.None? && after.leaseUntil.None?
                else after.state == Leased && after.output.None? && after.token == run.token && after.leaseUntil == run.leaseUntil)
  {
  }

  lemma CommitKeeps(def: Definition, id: RunId, run: Run, token: Token, clock: Time, i: nat, v: Json)
    requires WellFormed(def) && RunOk(def, id, run)
    requires Fence(run, token, clock) && Frontier(def, run, i) && MayRecord(def, id, run, i, v)
    ensures var (after, reply) := CommitStep(run, token, clock, i, v, i + 1 == |def.ops|);
            && RunOk(def, id, after) && Evolves(def, run, after)
            && reply == Advanced(None) && after.checkpoints == run.checkpoints[i := v]
            && after.cursor == i + 1
            && after.state == (if i + 1 == |def.ops| then Completed else Leased)
            && (after.state.Leased? ==> after.token == run.token && after.leaseUntil == run.leaseUntil && after.attempt == run.attempt)
  {
    hide WellFormed, CommitStep, ProgressOk, Justified, Work, Remaining, MayRecord;
    var (after, reply) := CommitStep(run, token, clock, i, v, i + 1 == |def.ops|);
    FrontierIsTop(def, id, run, i);
    CommitFields(run, token, clock, i, v, i + 1 == |def.ops|);
    JustifiedCommit(def, id, run, i, v, after);
    CommitProgress(def, run, i, v, after);
    CommitWork(def, run, i, after);
    LastIsOutput(def, i);
  }

  lemma JustifiedCommit(def: Definition, id: RunId, run: Run, i: nat, v: Json, after: Run)
    requires Justified(def, id, run) && i !in run.checkpoints && (forall p :: p in run.checkpoints ==> p < i)
    requires MayRecord(def, id, run, i, v) && after.checkpoints == run.checkpoints[i := v] && after.input == run.input
    ensures Justified(def, id, after) && i < |def.ops| && Records(def.ops[i])
  {
    JustifiedExtends(def, id, run, i, v, after.checkpoints);
  }

  lemma JustifiedSame(def: Definition, id: RunId, run: Run, after: Run)
    requires Justified(def, id, run) && after.checkpoints == run.checkpoints && after.input == run.input
    ensures Justified(def, id, after)
  {
  }

  lemma CompleteKeeps(def: Definition, id: RunId, run: Run, token: Token, clock: Time)
    requires WellFormed(def) && RunOk(def, id, run)
    requires Frontier(def, run, |def.ops|)
    ensures var after := CompleteRun(run, token, clock, |def.ops|, StoredOutput(def, run.checkpoints));
            RunOk(def, id, after) && Evolves(def, run, after)
  {
    FrontierIsTop(def, id, run, |def.ops|);
  }

  /** The positions after a sleep at the frontier was passed. */
  lemma SleepProgress(def: Definition, run: Run, i: nat, after: Run)
    requires ProgressOk(def, run) && i < |def.ops| && def.ops[i].Sleep? && run.cursor <= i
    requires forall p :: 0 <= p < i && Records(def.ops[p]) ==> p in run.checkpoints
    requires forall p :: p in run.checkpoints ==> p < i
    requires after.checkpoints == run.checkpoints && after.cursor == i + 1 && after.state.Ready?
    ensures ProgressOk(def, after)
  {
  }

  lemma ParkSleepKeeps(def: Definition, id: RunId, run: Run, token: Token, clock: Time, now: Time, i: nat)
    requires WellFormed(def) && RunOk(def, id, run)
    requires Frontier(def, run, i) && i < |def.ops| && def.ops[i].Sleep?
    ensures var after := ParkSleep(run, token, clock, now, i + 1, def.ops[i].duration);
            RunOk(def, id, after) && Evolves(def, run, after)
  {
    hide WellFormed, ProgressOk, Justified, Work, Remaining;
    var after := ParkSleep(run, token, clock, now, i + 1, def.ops[i].duration);
    FrontierIsTop(def, id, run, i);
    if Fence(run, token, clock) {
      SleepProgress(def, run, i, after);
      CommitWork(def, run, i, after);
      JustifiedSame(def, id, run, after);
    }
  }

  lemma ParkWaitKeeps(def: Definition, id: RunId, run: Run, token: Token, clock: Time, now: Time, i: nat, key: string)
    requires WellFormed(def) && RunOk(def, id, run)
    requires Frontier(def, run, i) && i < |def.ops| && def.ops[i].Wait?
    ensures var after := ParkWait(run, token, clock, now, i, key, def.ops[i].timeout);
            RunOk(def, id, after) && Evolves(def, run, after)
  {
    FrontierIsTop(def, id, run, i);
  }

  lemma FailKeeps(def: Definition, id: RunId, run: Run, token: Token, clock: Time, now: Time, error: string)
    requires RunOk(def, id, run)
    ensures var after := FailOrRetry(run, token, clock, now, run.attempt + 1, error);
            RunOk(def, id, after) && Evolves(def, run, after)
  {
  }

  lemma ClaimKeeps(def: Definition, id: RunId, run: Run, token: Token, now: Time, clock: Time, ttl: nat)
    requires RunOk(def, id, run) && Claimable(run, now)
    ensures RunOk(def, id, Claim(run, token, clock, ttl)) && Evolves(def, run, Claim(run, token, clock, ttl))
    ensures run.token.None?
  {
  }

  lemma RenewKeeps(def: Definition, id: RunId, run: Run, token: Token, clock: Time, ttl: nat)
    requires RunOk(def, id, run) && Fence(run, token, clock)
    ensures RunOk(def, id, Renew(run, clock, ttl)) && Evolves(def, run, Renew(run, clock, ttl))
    ensures OnlyRenewed(run, Renew(run, clock, ttl))
  {
  }

  lemma RecoverKeeps(def: Definition, id: RunId, run: Run, statement: Time, clock: Time)
    requires RunOk(def, id, run) && Expired(run, statement)
    ensures RunOk(def, id, Recover(run, clock)) && Evolves(def, run, Recover(run, clock))
  {
  }

  lemma CancelKeeps(def: Definition, id: RunId, run: Run)
    requires RunOk(def, id, run)
    ensures RunOk(def, id, Cancel(run)) && Evolves(def, run, Cancel(run))
  {
  }

  /** A waiting row is at its frontier, so an outcome may be recorded at the cursor. */
  lemma WaitingRecords(def: Definition, id: RunId, run: Run, outcome: Json, after: Run)
    requires RunOk(def, id, run) && run.state.Waiting? && IsOutcome(outcome)
    requires after.checkpoints == Recorded(run, outcome)
    requires after == run.(state := Ready, nextRunAt := after.nextRunAt, waitKey := None, waitDeadline := None,
                           lastError := after.lastError, checkpoints := after.checkpoints)
    ensures RunOk(def, id, after) && Evolves(def, run, after)
    ensures after.checkpoints == run.checkpoints[run.cursor := outcome] && run.cursor !in run.checkpoints
  {
    assert run.cursor !in run.checkpoints;
    JustifiedExtends(def, id, run, run.cursor, outcome, after.checkpoints);
    assert forall p :: p in after.checkpoints ==> p == run.cursor || p in run.checkpoints;
  }

  lemma WakeKeeps(def: Definition, id: RunId, run: Run, payload: Json, now: Time)
    requires RunOk(def, id, run) && run.state.Waiting?
    ensures RunOk(def, id, Wake(run, payload, now)) && Evolves(def, run, Wake(run, payload, now))
    ensures Wake(run, payload, now).checkpoints == run.checkpoints[run.cursor := Received(payload)]
    ensures Wake(run, payload, now).token.None?
    ensures run.cursor !in run.checkpoints
  {
    WaitingRecords(def, id, run, Received(payload), Wake(run, payload, now));
  }

  lemma TimeOutKeeps(def: Definition, id: RunId, run: Run, now: Time)
    requires RunOk(def, id, run) && run.state.Waiting?
    ensures RunOk(def, id, TimeOut(run, now)) && Evolves(def, run, TimeOut(run, now))
    ensures TimeOut(run, now).checkpoints == run.checkpoints[run.cursor := TIMED_OUT]
    ensures TimeOut(run, now).token.None?
    ensures run.cursor !in run.checkpoints
  {
    WaitingRecords(def, id, run, TIMED_OUT, TimeOut(run, now));
  }

  lemma InsertedOk(def: Definition, id: RunId, queue: string, maxAttempts: nat, at: Time, input: Json, dedup: Option<string>)
    requires WellFormed(def) && 0 < maxAttempts
    ensures RunOk(def, id, Inserted(KeyOf(def), queue, maxAttempts, at, input, dedup))
  {
  }
}
