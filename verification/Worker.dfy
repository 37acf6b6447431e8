/** One claim as a worker process carries it: its in-memory state and its local moves.
    A statement that was sent stays outstanding until the server executes it, even when the
    worker has meanwhile given up on the answer or crashed. */
module Worker {
  import opened Basics
  import opened Workflow
  import opened Rows
  import opened Tables

  /** A fenced statement sent by the drive loop outside a wait transaction. */
  datatype Statement =
    | Commit(index: nat, value: Json, complete: bool)
    | SleepUntil(next: nat, duration: nat)
    | Finish(cursor: nat, output: Option<Json>)

  /** History: the moment a wait looked its key up, how many events had been committed by then, and
      which of them had been pruned. */
  datatype Look = Look(at: Time, seen: nat, pruned: set<Event>)

  /** How far a wait transaction got on the server. */
  datatype TxPhase = Begun | Locked | Found(event: Event, look: Look) | Empty(look: Look)

  datatype WaitTx = WaitTx(index: nat, key: string, timeout: nat, complete: bool, begin: Time, phase: TxPhase)

  datatype Phase =
    | Driving
    | InStep(sc: StepContext)
    | Resolving(sc: StepContext)
    | AwaitDrive
    | InTx
    | Failing(error: string)
    | AwaitFail
    | Done

  /** `granted` is history: the latest lease_until the database granted this token. */
  datatype ClaimedRun = ClaimedRun(
    run: RunId,
    attempt: nat,
    input: Json,
    values: seq<Option<Json>>,
    index: nat,
    phase: Phase,
    drive: Option<Statement>,
    fail: Option<string>,
    tx: Option<WaitTx>,
    deadline: Time,
    confirm: Option<Time>,
    granted: Time
  )

  /** Nothing this claim sent is still outstanding. */
  predicate Idle(c: ClaimedRun) {
    c.drive.None? && c.fail.None? && c.tx.None?
  }

  predicate InUserCode(c: ClaimedRun) {
    c.phase.InStep? || c.phase.Resolving?
  }

  /** The drive loop has not returned yet. */
  predicate InLoop(c: ClaimedRun) {
    c.phase.Driving? || c.phase.InStep? || c.phase.Resolving? || c.phase.AwaitDrive? || c.phase.InTx?
  }

  /* ---- local moves ---- */

  /** What claimReadyRuns hands to drive for a row it just leased. */
  function Start(def: Definition, id: RunId, leased: Run, started: Time, ttl: nat): ClaimedRun {
    ClaimedRun(id, leased.attempt, leased.input, ValuesOf(leased.checkpoints, |def.ops|), leased.cursor, Driving,
               None, None, None, started + ttl, None,
               if leased.leaseUntil.Some? then leased.leaseUntil.value else started)
  }

  /** The loop stands at an index whose slot is already filled. */
  predicate CanSkip(c: ClaimedRun) {
    c.phase.Driving? && c.index < |c.values| && c.values[c.index].Some?
  }

  function Skip(c: ClaimedRun): ClaimedRun {
    c.(index := c.index + 1)
  }

  predicate CanBegin(def: Definition, c: ClaimedRun) {
    && c.phase.Driving? && c.index <= |def.ops| && |c.values| == |def.ops|
    && (c.index < |def.ops| ==> c.values[c.index].None?)
  }

  /** Starts the operation at the index, or completes the run past the last one. */
  function Begin(def: Definition, c: ClaimedRun): ClaimedRun
    requires CanBegin(def, c)
  {
    if c.index == |def.ops| then
      var output := if 0 <= def.outputIndex < |c.values| then c.values[def.outputIndex] else None;
      c.(phase := AwaitDrive, drive := Some(Finish(|def.ops|, output)))
    else
      match def.ops[c.index]
      case Step(_, _) => c.(phase := InStep(ContextFrom(def, c.run, c.input, c.values, c.index)))
      case Sleep(d) => c.(phase := AwaitDrive, drive := Some(SleepUntil(c.index + 1, d)))
      case Wait(_, _, _) => c.(phase := Resolving(ContextFrom(def, c.run, c.input, c.values, c.index)))
  }

  predicate CanReturn(def: Definition, c: ClaimedRun, v: Json) {
    c.phase.InStep? && c.index < |def.ops| && def.ops[c.index].Step? && def.ops[c.index].may(c.phase.sc, v)
  }

  /** The step function returned; its result is sent to be committed. */
  function Return(def: Definition, c: ClaimedRun, v: Json): ClaimedRun {
    c.(phase := AwaitDrive, drive := Some(Commit(c.index, v, c.index + 1 == |def.ops|)))
  }

  predicate CanOpen(def: Definition, c: ClaimedRun) {
    && c.phase.Resolving? && c.index < |def.ops| && def.ops[c.index].Wait?
    && Resolve(def.ops[c.index], c.phase.sc).Some?
  }

  /** The key is resolved and a wait transaction begins at `now`. */
  function Open(def: Definition, c: ClaimedRun, now: Time): ClaimedRun
    requires CanOpen(def, c)
  {
    var key := Resolve(def.ops[c.index], c.phase.sc).value;
    c.(phase := InTx,
       tx := Some(WaitTx(c.index, key, def.ops[c.index].timeout, c.index + 1 == |def.ops|, now, Begun)))
  }

  /** User code or a statement failed. */
  function Err(c: ClaimedRun, error: string): ClaimedRun {
    c.(phase := Failing(error))
  }

  function SendFailure(c: ClaimedRun): ClaimedRun
    requires c.phase.Failing?
  {
    c.(phase := AwaitFail, fail := Some(c.phase.error))
  }

  function Crash(c: ClaimedRun): ClaimedRun {
    c.(phase := Done)
  }

  /** The answer to a commit, whether sent alone or inside a wait transaction. */
  function Answered(c: ClaimedRun, sent: Json, complete: bool, reply: CommitReply): ClaimedRun {
    match reply
    case NoRow => c.(phase := Done)
    case Advanced(existing) =>
      var stored := if existing.Some? then existing.value else sent;
      var kept := c.(values := if c.index < |c.values| then c.values[c.index := Some(stored)] else c.values);
      if complete then kept.(phase := Done) else kept.(phase := Driving, index := c.index + 1)
  }

  /** Everything the worker process does on its own, without a row changing. */
  datatype Move =
    | SkipPosition
    | BeginOperation
    | StepReturns(value: Json)
    | UserCodeFails(error: string)
    | OpenWait
    | GiveUp(error: string)
    | SendFail
    | CrashClaim
    | AckRenewal

  predicate CanMove(def: Definition, c: ClaimedRun, m: Move) {
    match m
    case SkipPosition => CanSkip(c)
    case BeginOperation => CanBegin(def, c)
    case StepReturns(v) => CanReturn(def, c, v)
    case UserCodeFails(_) => InUserCode(c)
    case OpenWait => CanOpen(def, c)
    case GiveUp(_) => c.phase.AwaitDrive? || c.phase.InTx?
    case SendFail => c.phase.Failing?
    case CrashClaim => true
    case AckRenewal => c.confirm.Some?
  }

  function Moved(def: Definition, c: ClaimedRun, m: Move, clock: Time): ClaimedRun
    requires CanMove(def, c, m)
  {
    match m
    case SkipPosition => Skip(c)
    case BeginOperation => Begin(def, c)
    case StepReturns(v) => Return(def, c, v)
    case UserCodeFails(error) => Err(c, error)
    case OpenWait => Open(def, c, clock)
    case GiveUp(error) => Err(c, error)
    case SendFail => SendFailure(c)
    case CrashClaim => Crash(c)
    case AckRenewal => c.(deadline := c.confirm.value, confirm := None)
  }

  /* ---- the server executes something outstanding ---- */

  /** The row and the claim after a statement ran. A worker that still waits gets the answer;
      one that gave up learns nothing. */
  datatype Effect = Effect(run: Run, claim: ClaimedRun)

  function ExecuteDrive(c: ClaimedRun, token: Token, run: Run, clock: Time, now: Time): Effect
    requires c.drive.Some?
  {
    var rest := c.(drive := None);
    match c.drive.value
    case Commit(i, v, complete) =>
      var (after, reply) := CommitStep(run, token, clock, i, v, complete);
      Effect(after, if c.phase.AwaitDrive? then Answered(rest, v, complete, reply) else rest)
    case SleepUntil(next, d) =>
      Effect(ParkSleep(run, token, clock, now, next, d), if c.phase.AwaitDrive? then rest.(phase := Done) else rest)
    case Finish(cursor, output) =>
      Effect(CompleteRun(run, token, clock, cursor, output), if c.phase.AwaitDrive? then rest.(phase := Done) else rest)
  }

  function ExecuteFail(c: ClaimedRun, token: Token, run: Run, clock: Time, now: Time): Effect
    requires c.fail.Some?
  {
    var rest := c.(fail := None);
    Effect(FailOrRetry(run, token, clock, now, c.attempt + 1, c.fail.value),
           if c.phase.AwaitFail? then rest.(phase := Done) else rest)
  }

  predicate CanSettle(c: ClaimedRun) {
    c.tx.Some? && (c.tx.value.phase.Found? || c.tx.value.phase.Empty?)
  }

  /** The wait transaction, having looked the key up, delivers or parks, and commits. */
  function Settle(c: ClaimedRun, token: Token, run: Run, clock: Time): Effect
    requires CanSettle(c)
  {
    var tx := c.tx.value;
    var rest := c.(tx := None);
    if tx.phase.Found? then
      var (after, reply) := CommitStep(run, token, clock, tx.index, Received(tx.phase.event.payload), tx.complete);
      Effect(after, if c.phase.InTx? then Answered(rest, Received(tx.phase.event.payload), tx.complete, reply) else rest)
    else
      Effect(ParkWait(run, token, clock, tx.begin, tx.index, tx.key, tx.timeout),
             if c.phase.InTx? then rest.(phase := Done) else rest)
  }

  /** What the server can execute on behalf of a claim. */
  datatype Exec = ExecDrive(now: Time) | ExecFail(now: Time) | WaitSettle

  predicate CanExecute(c: ClaimedRun, x: Exec, clock: Time) {
    match x
    case ExecDrive(now) => c.drive.Some? && now <= clock
    case ExecFail(now) => c.fail.Some? && now <= clock
    case WaitSettle => CanSettle(c)
  }

  function Executed(c: ClaimedRun, token: Token, run: Run, clock: Time, x: Exec): Effect
    requires CanExecute(c, x, clock)
  {
    match x
    case ExecDrive(now) => ExecuteDrive(c, token, run, clock, now)
    case ExecFail(now) => ExecuteFail(c, token, run, clock, now)
    case WaitSettle => Settle(c, token, run, clock)
  }
}
