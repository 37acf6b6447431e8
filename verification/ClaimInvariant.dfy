/** What holds between a claim and the row it was taken on. */
module ClaimInvariant {
  import opened Basics
  import opened Workflow
  import opened Rows
  import opened RunInvariant
  import opened Worker

  /** The resolved event key of the wait at `p`, as the stored checkpoints determine it. */
  ghost function KeyAt(def: Definition, id: RunId, run: Run, p: nat): Option<string>
    requires p < |def.ops| && def.ops[p].Wait?
  {
    Resolve(def.ops[p], ContextAt(def, id, run.input, run.checkpoints, p))
  }

  /** In-memory values are stored checkpoints, and everything the claim has passed is there. */
  ghost predicate ViewOk(def: Definition, c: ClaimedRun, run: Run) {
    && c.input == run.input
    && |c.values| == |def.ops| && c.index <= |def.ops|
    && (forall p :: 0 <= p < |c.values| && c.values[p].Some? ==> p in run.checkpoints && run.checkpoints[p] == c.values[p].value)
    && (forall p :: 0 <= p < c.index && Records(def.ops[p]) ==> c.values[p].Some?)
  }

  /** What each phase says about outstanding statements and the operation at the index. */
  ghost predicate PhaseOk(def: Definition, c: ClaimedRun, run: Run)
    requires ViewOk(def, c, run)
  {
    && (c.phase.Driving? || InUserCode(c) ==> Idle(c))
    && (InUserCode(c) || c.phase.InTx? || (c.phase.AwaitDrive? && c.drive.Some? && c.drive.value.Commit?) ==>
          c.index < |def.ops| && c.values[c.index].None?)
    && (c.phase.InStep? ==> def.ops[c.index].Step? && c.phase.sc == ContextAt(def, c.run, run.input, run.checkpoints, c.index))
    && (c.phase.Resolving? ==> def.ops[c.index].Wait? && c.phase.sc == ContextAt(def, c.run, run.input, run.checkpoints, c.index))
    && (c.phase.AwaitDrive? ==> c.drive.Some? && c.fail.None?)
    && (c.phase.AwaitDrive? && c.drive.Some? && c.drive.value.Commit? ==> c.drive.value.index == c.index)
    && (c.phase.InTx? ==> c.tx.Some? && c.fail.None? && c.tx.value.index == c.index)
    && (c.phase.Failing? ==> c.fail.None?)
    && (c.drive.Some? ==> c.tx.None?)
    && (c.drive.Some? && c.drive.value.Commit? ==> c.drive.value.complete == (c.drive.value.index + 1 == |def.ops|))
    && (c.tx.Some? ==> SentOk(def, c.tx.value))
  }

  /** The arguments of a wait transaction are those of the operation it serves. */
  ghost predicate SentOk(def: Definition, tx: WaitTx) {
    && tx.index < |def.ops| && def.ops[tx.index].Wait?
    && tx.timeout == def.ops[tx.index].timeout && tx.complete == (tx.index + 1 == |def.ops|)
  }

  /** An outstanding statement of the current holder does to the row what the definition says next. */
  ghost predicate StatementOk(def: Definition, id: RunId, run: Run, stmt: Statement) {
    match stmt
    case Commit(i, v, complete) =>
      && i < |def.ops| && def.ops[i].Step? && Frontier(def, run, i)
      && MayRecord(def, id, run, i, v) && complete == (i + 1 == |def.ops|)
    case SleepUntil(next, d) =>
      && 1 <= next <= |def.ops| && def.ops[next - 1].Sleep? && Frontier(def, run, next - 1)
      && d == def.ops[next - 1].duration
    case Finish(cursor, output) =>
      cursor == |def.ops| && Frontier(def, run, cursor) && output == StoredOutput(def, run.checkpoints)
  }

  ghost predicate TxOk(def: Definition, id: RunId, run: Run, tx: WaitTx) {
    && tx.index < |def.ops| && def.ops[tx.index].Wait? && Frontier(def, run, tx.index)
    && KeyAt(def, id, run, tx.index) == Some(tx.key)
  }

  /** The current holder sees everything stored and is never behind the stored cursor. */
  ghost predicate CurrentOk(def: Definition, c: ClaimedRun, run: Run)
    requires ViewOk(def, c, run)
  {
    && c.attempt == run.attempt
    && run.leaseUntil == Some(c.granted)
    && (InLoop(c) ==>
          && run.cursor <= c.index
          && (forall p :: p in run.checkpoints ==> p < |c.values| && c.values[p].Some?)
          && (forall p :: run.cursor <= p < c.index ==> c.values[p].Some?))
    && (c.drive.Some? ==> StatementOk(def, c.run, run, c.drive.value))
    && (c.tx.Some? ==> TxOk(def, c.run, run, c.tx.value))
  }

  ghost predicate ClaimOk(def: Definition, token: Token, c: ClaimedRun, run: Run) {
    && ViewOk(def, c, run) && PhaseOk(def, c, run)
    && (run.token == Some(token) ==> CurrentOk(def, c, run))
  }

  /** With everything passed over settled, the context built in memory is the stored one. */
  lemma ViewGivesContext(def: Definition, c: ClaimedRun, run: Run)
    requires RunOk(def, c.run, run) && ViewOk(def, c, run)
    requires c.index < |def.ops| && Records(def.ops[c.index])
    ensures ContextFrom(def, c.run, c.input, c.values, c.index) == ContextAt(def, c.run, run.input, run.checkpoints, c.index)
  {
    forall i | 0 <= i < c.index
      ensures c.values[i] == ValuesOf(run.checkpoints, c.index)[i]
    {
      if Records(def.ops[i]) {
        assert c.values[i].Some?;
      } else {
        assert i !in run.checkpoints;
      }
    }
    assert c.values[..c.index] == ValuesOf(run.checkpoints, c.index);
  }

  /** The holder's index is the frontier when nothing is stored there. */
  lemma IndexIsFrontier(def: Definition, c: ClaimedRun, run: Run)
    requires RunOk(def, c.run, run) && ViewOk(def, c, run) && CurrentOk(def, c, run) && InLoop(c)
    requires c.index < |def.ops| ==> c.values[c.index].None?
    ensures Frontier(def, run, c.index)
  {
  }

  /** A claim that does not hold the lease afterwards is unaffected by any change of the row
      that keeps its checkpoints. */
  lemma BystanderKeeps(def: Definition, token: Token, c: ClaimedRun, run: Run, after: Run)
    requires RunOk(def, c.run, run) && RunOk(def, c.run, after)
    requires ClaimOk(def, token, c, run)
    requires after.input == run.input && Keeps(run.checkpoints, after.checkpoints)
    requires after.token != Some(token)
    ensures ClaimOk(def, token, c, after)
  {
    assert ViewOk(def, c, after);
    if InUserCode(c) {
      forall i | 0 <= i < c.index
        ensures i in run.checkpoints <==> i in after.checkpoints
      {
        if Records(def.ops[i]) {
          assert c.values[i].Some?;
        }
      }
      ContextDependsBelow(def, c.run, run.input, run.checkpoints, after.checkpoints, c.index);
    }
  }

  /** Extending the lease changes nothing the rest of the invariant looks at. */
  lemma RenewalKeeps(def: Definition, token: Token, c: ClaimedRun, d: ClaimedRun, run: Run, after: Run)
    requires ClaimOk(def, token, c, run)
    requires OnlyRenewed(run, after)
    requires d == c.(granted := d.granted, confirm := d.confirm)
    requires run.token == Some(token) ==> after.leaseUntil == Some(d.granted)
    ensures ClaimOk(def, token, d, after)
  {
    assert after.checkpoints == run.checkpoints && after.cursor == run.cursor && after.input == run.input;
    assert ViewOk(def, d, after);
    assert PhaseOk(def, d, after);
    if run.token == Some(token) {
      assert CurrentOk(def, c, run);
      if c.drive.Some? {
        assert StatementOk(def, c.run, after, c.drive.value);
      }
      if c.tx.Some? {
        assert TxOk(def, c.run, after, c.tx.value);
      }
    }
  }

  /* ---- local moves ---- */

  lemma StartOk(def: Definition, id: RunId, token: Token, run: Run, now: Time, clock: Time, started: Time, ttl: nat)
    requires WellFormed(def) && RunOk(def, id, run) && Claimable(run, now)
    ensures var leased := Claim(run, token, clock, ttl);
            ClaimOk(def, token, Start(def, id, leased, started, ttl), leased)
  {
  }

  lemma SkipOk(def: Definition, token: Token, c: ClaimedRun, run: Run)
    requires ClaimOk(def, token, c, run) && CanSkip(c)
    ensures ClaimOk(def, token, Skip(c), run)
  {
  }

  lemma BeginOk(def: Definition, token: Token, c: ClaimedRun, run: Run)
    requires WellFormed(def) && RunOk(def, c.run, run) && ClaimOk(def, token, c, run) && CanBegin(def, c)
    ensures ClaimOk(def, token, Begin(def, c), run)
  {
    hide RunOk, ClaimOk, WellFormed;
    if c.index < |def.ops| && Records(def.ops[c.index]) {
      BeginUserCode(def, token, c, run);
    } else {
      BeginStatement(def, token, c, run);
    }
  }

  lemma BeginUserCode(def: Definition, token: Token, c: ClaimedRun, run: Run)
    requires RunOk(def, c.run, run) && ClaimOk(def, token, c, run) && CanBegin(def, c) && c.index < |def.ops| && Records(def.ops[c.index])
    ensures ClaimOk(def, token, Begin(def, c), run)
  {
    hide RunOk, ContextAt, ContextFrom, Frontier;
    ViewGivesContext(def, c, run);
  }

  lemma BeginStatement(def: Definition, token: Token, c: ClaimedRun, run: Run)
    requires WellFormed(def) && RunOk(def, c.run, run) && ClaimOk(def, token, c, run) && CanBegin(def, c)
    requires c.index < |def.ops| ==> def.ops[c.index].Sleep?
    ensures ClaimOk(def, token, Begin(def, c), run)
  {
    hide RunOk, ContextAt, Frontier;
    if run.token == Some(token) {
      IndexIsFrontier(def, c, run);
    }
  }

  lemma ReturnOk(def: Definition, token: Token, c: ClaimedRun, run: Run, v: Json)
    requires RunOk(def, c.run, run) && ClaimOk(def, token, c, run) && CanReturn(def, c, v)
    ensures ClaimOk(def, token, Return(def, c, v), run)
  {
    if run.token == Some(token) {
      IndexIsFrontier(def, c, run);
    }
  }

  lemma OpenOk(def: Definition, token: Token, c: ClaimedRun, run: Run, now: Time)
    requires RunOk(def, c.run, run) && ClaimOk(def, token, c, run) && CanOpen(def, c)
    ensures ClaimOk(def, token, Open(def, c, now), run)
  {
    hide RunOk, Frontier, Resolve, ContextAt;
    var d := Open(def, c, now);
    OpenedPhase(def, token, c, run, d, now);
    if run.token == Some(token) {
      OpenedTx(def, token, c, run, d, now);
    }
  }

  lemma OpenedPhase(def: Definition, token: Token, c: ClaimedRun, run: Run, d: ClaimedRun, now: Time)
    requires ClaimOk(def, token, c, run) && CanOpen(def, c) && d == Open(def, c, now)
    ensures ViewOk(def, d, run) && PhaseOk(def, d, run)
  {
    hide Resolve, ContextAt, CurrentOk;
  }

  /** The transaction of the holder is for the frontier, under the key the stored checkpoints determine. */
  lemma OpenedTx(def: Definition, token: Token, c: ClaimedRun, run: Run, d: ClaimedRun, now: Time)
    requires RunOk(def, c.run, run) && ClaimOk(def, token, c, run) && run.token == Some(token) && CanOpen(def, c) && d == Open(def, c, now)
    requires ViewOk(def, d, run)
    ensures CurrentOk(def, d, run)
  {
    hide RunOk, Frontier, Resolve, ContextAt;
    IndexIsFrontier(def, c, run);
  }

  /** Leaving the loop with whatever was sent still outstanding. */
  lemma LeaveOk(def: Definition, token: Token, c: ClaimedRun, d: ClaimedRun, run: Run)
    requires ClaimOk(def, token, c, run)
    requires d == c.(phase := d.phase) && (d.phase.Done? || (d.phase.Failing? && InLoop(c)))
    ensures ClaimOk(def, token, d, run)
  {
  }

  lemma MovedOk(def: Definition, token: Token, c: ClaimedRun, run: Run, m: Move, clock: Time)
    requires WellFormed(def) && RunOk(def, c.run, run) && ClaimOk(def, token, c, run) && CanMove(def, c, m)
    ensures ClaimOk(def, token, Moved(def, c, m, clock), run)
  {
    hide RunOk, ClaimOk;
    match m {
      case SkipPosition => SkipOk(def, token, c, run);
      case BeginOperation => BeginOk(def, token, c, run);
      case StepReturns(v) => ReturnOk(def, token, c, run, v);
      case OpenWait => OpenOk(def, token, c, run, clock);
      case AckRenewal => AckOk(def, token, c, run);
      case SendFail => SendFailOk(def, token, c, run);
      case _ => LeaveOk(def, token, c, Moved(def, c, m, clock), run);
    }
  }

  lemma AckOk(def: Definition, token: Token, c: ClaimedRun, run: Run)
    requires ClaimOk(def, token, c, run) && c.confirm.Some?
    ensures ClaimOk(def, token, c.(deadline := c.confirm.value, confirm := None), run)
  {
  }

  lemma SendFailOk(def: Definition, token: Token, c: ClaimedRun, run: Run)
    requires ClaimOk(def, token, c, run) && c.phase.Failing?
    ensures ClaimOk(def, token, SendFailure(c), run)
  {
  }

  lemma TxMoveOk(def: Definition, token: Token, c: ClaimedRun, run: Run, phase: TxPhase)
    requires ClaimOk(def, token, c, run) && c.tx.Some?
    ensures ClaimOk(def, token, c.(tx := Some(c.tx.value.(phase := phase))), run)
  {
  }

  lemma RollbackOk(def: Definition, token: Token, c: ClaimedRun, run: Run, error: string)
    requires ClaimOk(def, token, c, run) && c.tx.Some?
    ensures ClaimOk(def, token, if c.phase.InTx? then Err(c.(tx := None), error) else c.(tx := None), run)
  {
  }

  /* ---- executed statements ---- */

  ghost predicate EffectOk(def: Definition, token: Token, c: ClaimedRun, run: Run, e: Effect) {
    && e.claim.run == c.run
    && RunOk(def, c.run, e.run) && Evolves(def, run, e.run)
    && ClaimOk(def, token, e.claim, e.run)
    && (e.run.token == run.token || e.run.token.None?)
    && (run.token != Some(token) ==> e.run == run)
  }

  /** What an accepted commit of `v` at `i` did to the row, as far as claims can tell. */
  ghost predicate Committed(def: Definition, run: Run, after: Run, i: nat, v: Json) {
    && i < |def.ops|
    && after.input == run.input && after.checkpoints == run.checkpoints[i := v] && after.cursor == i + 1
    && (after.token.None? || (after.token == run.token && after.leaseUntil == run.leaseUntil && after.attempt == run.attempt))
  }

  /** An accepted commit that the holder still waits for. */
  lemma AcceptedCommit(def: Definition, token: Token, c: ClaimedRun, d: ClaimedRun, run: Run, after: Run, v: Json, i: nat)
    requires ClaimOk(def, token, c, run) && run.token == Some(token) && InLoop(c) && i == c.index
    requires Committed(def, run, after, i, v) && i !in run.checkpoints
    requires d == c.(drive := None, tx := None, fail := None, values := c.values[i := Some(v)], phase := d.phase, index := d.index)
    requires (d.phase.Done? && d.index == i) || (d.phase.Driving? && d.index == i + 1)
    ensures ClaimOk(def, token, d, after)
  {
    assert ViewOk(def, d, after);
    assert PhaseOk(def, d, after);
    if after.token == Some(token) {
      assert forall p :: p in after.checkpoints ==> p == i || p in run.checkpoints;
      assert CurrentOk(def, d, after);
    }
  }

  /** An accepted commit nobody waits for any more. */
  lemma AbandonedCommit(def: Definition, token: Token, c: ClaimedRun, d: ClaimedRun, run: Run, after: Run, v: Json, i: nat)
    requires ClaimOk(def, token, c, run) && run.token == Some(token) && !InLoop(c)
    requires Committed(def, run, after, i, v) && i !in run.checkpoints
    requires d == c.(drive := None, tx := None)
    ensures ClaimOk(def, token, d, after)
  {
    assert ViewOk(def, d, after);
    assert PhaseOk(def, d, after);
  }

  /** A commit of the next value, by a holder that still waits or by one that gave up. */
  lemma CommitEffectOk(def: Definition, token: Token, c: ClaimedRun, rest: ClaimedRun, run: Run, clock: Time, v: Json, i: nat, e: Effect)
    requires WellFormed(def) && RunOk(def, c.run, run) && ClaimOk(def, token, c, run)
    requires rest == c.(drive := None, tx := None)
    requires InLoop(c) ==> i == c.index && c.fail.None?
    requires run.token == Some(token) ==> Frontier(def, run, i) && MayRecord(def, c.run, run, i, v)
    requires var complete := i + 1 == |def.ops|;
             var (after, reply) := CommitStep(run, token, clock, i, v, complete);
             e == Effect(after, if InLoop(c) then Answered(rest, v, complete, reply) else rest)
    ensures EffectOk(def, token, c, run, e)
  {
    if Fence(run, token, clock) {
      CommitKeeps(def, c.run, run, token, clock, i, v);
      assert Committed(def, run, e.run, i, v);
      if InLoop(c) {
        AcceptedCommit(def, token, c, e.claim, run, e.run, v, i);
      } else {
        AbandonedCommit(def, token, c, e.claim, run, e.run, v, i);
      }
    } else {
      assert e.run == run;
      assert ClaimOk(def, token, e.claim, run);
    }
  }

  /** A statement that gives the lease back, or is fenced off, ends the claim's part. */
  lemma LeaveOrStay(def: Definition, token: Token, c: ClaimedRun, rest: ClaimedRun, run: Run, e: Effect)
    requires RunOk(def, c.run, run) && ClaimOk(def, token, c, run)
    requires rest == c.(drive := rest.drive, fail := rest.fail, tx := rest.tx)
    requires rest.drive.None? || rest.drive == c.drive
    requires rest.tx.None? || rest.tx == c.tx
    requires rest.fail.None? || rest.fail == c.fail
    requires e.claim == rest.(phase := e.claim.phase) && (e.claim.phase.Done? || e.claim.phase == c.phase)
    requires e.claim.phase.AwaitDrive? || e.claim.phase.InTx? ==> rest == c
    requires e.run == run || (RunOk(def, c.run, e.run) && Evolves(def, run, e.run) && e.run.token.None? && run.token == Some(token))
    ensures EffectOk(def, token, c, run, e)
  {
    assert ClaimOk(def, token, e.claim, run);
    if e.run != run {
      BystanderKeeps(def, token, e.claim, run, e.run);
    }
  }

  lemma SleepEffectOk(def: Definition, token: Token, c: ClaimedRun, run: Run, clock: Time, now: Time)
    requires WellFormed(def) && RunOk(def, c.run, run) && ClaimOk(def, token, c, run)
    requires c.drive.Some? && c.drive.value.SleepUntil?
    ensures EffectOk(def, token, c, run, ExecuteDrive(c, token, run, clock, now))
  {
    hide WellFormed, RunOk, ClaimOk, Evolves, EffectOk;
    DrivesOutsideTx(def, token, c, run);
    if Fence(run, token, clock) {
      SleepsNext(def, token, c, run, clock);
      ParkSleepKeeps(def, c.run, run, token, clock, now, c.drive.value.next - 1);
    }
    LeaveOrStay(def, token, c, c.(drive := None), run, ExecuteDrive(c, token, run, clock, now));
  }

  lemma DrivesOutsideTx(def: Definition, token: Token, c: ClaimedRun, run: Run)
    requires ClaimOk(def, token, c, run) && c.drive.Some?
    ensures !c.phase.InTx?
  {
    hide CurrentOk;
  }

  /** The sleep the holder parks for is the one at the frontier. */
  lemma SleepsNext(def: Definition, token: Token, c: ClaimedRun, run: Run, clock: Time)
    requires ClaimOk(def, token, c, run) && Fence(run, token, clock) && c.drive.Some? && c.drive.value.SleepUntil?
    ensures var next := c.drive.value.next;
            && 1 <= next <= |def.ops| && def.ops[next - 1].Sleep? && Frontier(def, run, next - 1)
            && c.drive.value.duration == def.ops[next - 1].duration
  {
    hide Frontier, PhaseOk;
  }

  lemma FinishEffectOk(def: Definition, token: Token, c: ClaimedRun, run: Run, clock: Time, now: Time)
    requires WellFormed(def) && RunOk(def, c.run, run) && ClaimOk(def, token, c, run)
    requires c.drive.Some? && c.drive.value.Finish?
    ensures EffectOk(def, token, c, run, ExecuteDrive(c, token, run, clock, now))
  {
    if Fence(run, token, clock) {
      CompleteKeeps(def, c.run, run, token, clock);
    }
    LeaveOrStay(def, token, c, c.(drive := None), run, ExecuteDrive(c, token, run, clock, now));
  }

  lemma ExecuteDriveOk(def: Definition, token: Token, c: ClaimedRun, run: Run, clock: Time, now: Time)
    requires WellFormed(def) && RunOk(def, c.run, run) && ClaimOk(def, token, c, run) && c.drive.Some?
    ensures EffectOk(def, token, c, run, ExecuteDrive(c, token, run, clock, now))
  {
    match c.drive.value {
      case Commit(i, v, complete) =>
        CommitEffectOk(def, token, c, c.(drive := None), run, clock, v, i, ExecuteDrive(c, token, run, clock, now));
      case SleepUntil(next, d) =>
        SleepEffectOk(def, token, c, run, clock, now);
      case Finish(cursor, output) =>
        FinishEffectOk(def, token, c, run, clock, now);
    }
  }

  lemma ExecuteFailOk(def: Definition, token: Token, c: ClaimedRun, run: Run, clock: Time, now: Time)
    requires RunOk(def, c.run, run) && ClaimOk(def, token, c, run) && c.fail.Some?
    ensures EffectOk(def, token, c, run, ExecuteFail(c, token, run, clock, now))
  {
    if Fence(run, token, clock) {
      FailKeeps(def, c.run, run, token, clock, now, c.fail.value);
    }
    LeaveOrStay(def, token, c, c.(fail := None), run, ExecuteFail(c, token, run, clock, now));
  }

  lemma SettleOk(def: Definition, token: Token, c: ClaimedRun, run: Run, clock: Time)
    requires WellFormed(def) && RunOk(def, c.run, run) && ClaimOk(def, token, c, run) && CanSettle(c)
    ensures EffectOk(def, token, c, run, Settle(c, token, run, clock))
  {
    var tx := c.tx.value;
    var rest := c.(tx := None);
    var e := Settle(c, token, run, clock);
    if tx.phase.Found? {
      CommitEffectOk(def, token, c, rest, run, clock, Received(tx.phase.event.payload), tx.index, e);
    } else {
      if Fence(run, token, clock) {
        ParkWaitKeeps(def, c.run, run, token, clock, tx.begin, tx.index, tx.key);
      }
      LeaveOrStay(def, token, c, rest, run, e);
    }
  }

  lemma ExecutedOk(def: Definition, token: Token, c: ClaimedRun, run: Run, clock: Time, x: Exec)
    requires WellFormed(def) && RunOk(def, c.run, run) && ClaimOk(def, token, c, run) && CanExecute(c, x, clock)
    ensures EffectOk(def, token, c, run, Executed(c, token, run, clock, x))
  {
    hide RunOk, ClaimOk, EffectOk;
    match x {
      case ExecDrive(now) => ExecuteDriveOk(def, token, c, run, clock, now);
      case ExecFail(now) => ExecuteFailOk(def, token, c, run, clock, now);
      case WaitSettle => SettleOk(def, token, c, run, clock);
    }
  }
}
