/** One execution of the drive loop as a path of the claim automaton: which moves it takes is decided by what
    the world around it answers, and the statements it sends are read off the path. */
module DrivePath {
  import opened Basics
  import opened Workflow
  import opened Rows
  import opened Tables
  import opened Worker

  datatype Ran = Returned(value: Json) | StepFailed(error: string)
  datatype CommitAnswer = Replied(reply: CommitReply) | CommitBroke(error: string)
  datatype Affected = Rows(n: nat) | ExecBroke(error: string)
  datatype Lookup = Hit(event: Event) | Miss | LookupBroke(error: string)

  /** Everything the loop depends on, by position: each position is reached at most once. `begunAt` and `look`
      are the start of the wait transaction and the moment of its lookup. */
  datatype Env = Env(
    stopped: nat -> bool,
    ran: (nat, StepContext) -> Ran,
    committed: (nat, Json, bool) -> CommitAnswer,
    slept: nat -> Affected,
    finished: Option<Json> -> Affected,
    begun: nat -> Option<string>,
    begunAt: nat -> Time,
    locked: nat -> Option<string>,
    looked: (nat, string) -> Lookup,
    look: nat -> Look,
    parked: (nat, string) -> Affected,
    txDone: nat -> Option<string>
  )

  /** Step functions return only what they may return. */
  ghost predicate Plays(env: Env, def: Definition) {
    forall i, sc :: 0 <= i < |def.ops| && def.ops[i].Step? && env.ran(i, sc).Returned? ==> def.ops[i].may(sc, env.ran(i, sc).value)
  }

  /** How drive returns: nil, the lost-lease error, the context's own error, or another error. */
  datatype End = Ended | LostLease | Stopped | Errored(error: string)

  /** The error of a wait whose key cannot be resolved. */
  const KEY_ERROR := "event key"

  /* ---- statements ---- */

  datatype Sent =
    | Commits(index: nat, value: Json, complete: bool)
    | Sleeps(next: nat, duration: nat)
    | Parks(index: nat, key: string, timeout: nat)
    | Finishes(cursor: nat, output: Option<Json>)

  function Position(x: Sent): nat {
    match x
    case Commits(i, _, _) => i
    case Sleeps(next, _) => if next > 0 then next - 1 else 0
    case Parks(i, _, _) => i
    case Finishes(cursor, _) => cursor
  }

  function ToSent(stmt: Statement): Sent {
    match stmt
    case Commit(i, v, complete) => Commits(i, v, complete)
    case SleepUntil(next, d) => Sleeps(next, d)
    case Finish(cursor, output) => Finishes(cursor, output)
  }

  /** The statement a step of the claim sends: one of the loop, or the one that follows a lookup. */
  function Sending(c: ClaimedRun, after: ClaimedRun): seq<Sent> {
    if c.drive.None? && after.drive.Some? then [ToSent(after.drive.value)]
    else if c.tx.Some? && c.tx.value.phase.Locked? && after.tx.Some? then
      var tx := after.tx.value;
      match tx.phase
      case Found(e, _) => [Commits(tx.index, Received(e.payload), tx.complete)]
      case Empty(_) => [Parks(tx.index, tx.key, tx.timeout)]
      case _ => []
    else []
  }

  /* ---- which steps the answers allow ---- */

  /** An error at the point the claim has reached. */
  predicate Breaks(env: Env, c: ClaimedRun, error: string) {
    if c.phase.AwaitDrive? then
      c.drive.Some? &&
      match c.drive.value
      case Commit(i, v, complete) => env.committed(i, v, complete) == CommitBroke(error)
      case SleepUntil(_, _) => env.slept(c.index) == ExecBroke(error)
      case Finish(_, output) => env.finished(output) == ExecBroke(error)
    else
      c.tx.Some? &&
      var tx := c.tx.value;
      match tx.phase
      case Begun => if env.begun(c.index).Some? then env.begun(c.index) == Some(error) else env.locked(c.index) == Some(error)
      case Locked => env.looked(c.index, tx.key) == LookupBroke(error)
      case Found(e, _) =>
        var answer := env.committed(c.index, Received(e.payload), tx.complete);
        answer == CommitBroke(error) || (answer.Replied? && answer.reply.Advanced? && env.txDone(c.index) == Some(error))
      case Empty(_) =>
        var answer := env.parked(c.index, tx.key);
        answer == ExecBroke(error) || (answer.Rows? && answer.n > 0 && env.txDone(c.index) == Some(error))
  }

  /** A move of the claim itself. It stops only between operations, when its context is cancelled there. */
  predicate MoveAgrees(env: Env, def: Definition, c: ClaimedRun, m: Move) {
    match m
    case SkipPosition => c.index < |def.ops| && !env.stopped(c.index)
    case BeginOperation => c.index < |def.ops| ==> !env.stopped(c.index)
    case StepReturns(v) => c.phase.InStep? && env.ran(c.index, c.phase.sc) == Returned(v)
    case UserCodeFails(error) =>
      if c.phase.InStep? then env.ran(c.index, c.phase.sc) == StepFailed(error)
      else c.phase.Resolving? && c.index < |def.ops| && def.ops[c.index].Wait? && Resolve(def.ops[c.index], c.phase.sc).None? && error == KEY_ERROR
    case OpenWait => true
    case GiveUp(error) => Breaks(env, c, error)
    case CrashClaim => c.phase.Driving? && c.index < |def.ops| && env.stopped(c.index)
    case _ => false
  }

  predicate TxAgrees(env: Env, c: ClaimedRun, phase: TxPhase) {
    c.phase.InTx? && c.tx.Some? &&
    match c.tx.value.phase
    case Begun => phase.Locked? && env.begun(c.index).None? && env.locked(c.index).None?
    case Locked =>
      (match env.looked(c.index, c.tx.value.key)
       case Hit(e) => phase == Found(e, env.look(c.index))
       case Miss => phase == Empty(env.look(c.index))
       case LookupBroke(_) => false)
    case _ => false
  }

  /** The fence decided what the answer says. */
  predicate FenceAgrees(answer: Affected, run: Run, token: Token, clock: Time) {
    answer.Rows? && (answer.n > 0 <==> Fence(run, token, clock))
  }

  /** The server executed what was sent, on a row that gives the answer; a transaction also committed. */
  predicate ServerAgrees(env: Env, c: ClaimedRun, x: Exec, token: Token, run: Run, clock: Time) {
    match x
    case ExecDrive(_) =>
      c.phase.AwaitDrive? && c.drive.Some? &&
      (match c.drive.value
       case Commit(i, v, complete) => env.committed(i, v, complete) == Replied(CommitStep(run, token, clock, i, v, complete).1)
       case SleepUntil(_, _) => FenceAgrees(env.slept(c.index), run, token, clock)
       case Finish(_, output) => FenceAgrees(env.finished(output), run, token, clock))
    case WaitSettle =>
      c.phase.InTx? && c.tx.Some? &&
      var tx := c.tx.value;
      (match tx.phase
       case Found(e, _) =>
         var reply := CommitStep(run, token, clock, tx.index, Received(e.payload), tx.complete).1;
         env.committed(c.index, Received(e.payload), tx.complete) == Replied(reply) && (reply.Advanced? ==> env.txDone(c.index).None?)
       case Empty(_) =>
         FenceAgrees(env.parked(c.index, tx.key), run, token, clock) && (Fence(run, token, clock) ==> env.txDone(c.index).None?)
       case _ => false)
    case ExecFail(_) => false
  }

  datatype Happening =
    | Own(move: Move)
    | Served(exec: Exec, token: Token, run: Run, clock: Time)
    | TxTo(phase: TxPhase)

  /** One step of the claim automaton that agrees with what the world answers. */
  predicate Follows(env: Env, def: Definition, c: ClaimedRun, h: Happening, after: ClaimedRun) {
    match h
    case Own(m) => CanMove(def, c, m) && MoveAgrees(env, def, c, m) && after == Moved(def, c, m, env.begunAt(c.index))
    case Served(x, token, run, clock) =>
      CanExecute(c, x, clock) && ServerAgrees(env, c, x, token, run, clock) && after == Executed(c, token, run, clock, x).claim
    case TxTo(phase) => TxAgrees(env, c, phase) && after == c.(tx := Some(c.tx.value.(phase := phase)))
  }

  /** The loop has returned. */
  predicate Over(c: ClaimedRun) {
    c.phase.Done? || c.phase.Failing?
  }

  predicate Accepted(c: ClaimedRun, x: Exec, token: Token, run: Run, clock: Time) {
    if x.ExecDrive? && c.drive.Some? && c.drive.value.Commit? then CommitMatches(run, token, clock, c.drive.value.index)
    else if x.WaitSettle? && c.tx.Some? && c.tx.value.phase.Found? then CommitMatches(run, token, clock, c.tx.value.index)
    else Fence(run, token, clock)
  }

  /** What drive returns when this step ends the loop. */
  function EndOf(c: ClaimedRun, h: Happening): End {
    match h
    case Own(GiveUp(error)) => Errored(error)
    case Own(UserCodeFails(error)) => Errored(error)
    case Own(_) => Stopped
    case Served(x, token, run, clock) => if Accepted(c, x, token, run, clock) then Ended else LostLease
    case TxTo(_) => Ended
  }

  /* ---- paths ---- */

  ghost predicate IsPath(env: Env, def: Definition, states: seq<ClaimedRun>, steps: seq<Happening>) {
    && |states| == |steps| + 1
    && forall k :: 0 <= k < |steps| ==> Follows(env, def, states[k], steps[k], states[k + 1])
  }

  function SentAlong(states: seq<ClaimedRun>): seq<Sent> {
    if |states| <= 1 then []
    else SentAlong(states[..|states| - 1]) + Sending(states[|states| - 2], states[|states| - 1])
  }

  ghost predicate Joins(env: Env, def: Definition, a: ClaimedRun, states: seq<ClaimedRun>, steps: seq<Happening>, sent: seq<Sent>, b: ClaimedRun) {
    IsPath(env, def, states, steps) && states[0] == a && states[|steps|] == b && sent == SentAlong(states)
  }

  /** The claim gets from `a` to `b`, sending exactly `sent`. */
  ghost predicate Reaches(env: Env, def: Definition, a: ClaimedRun, sent: seq<Sent>, b: ClaimedRun) {
    exists states, steps :: Joins(env, def, a, states, steps, sent, b)
  }

  /** The last step of a path that ends the loop. */
  ghost predicate LastStep(env: Env, def: Definition, a: ClaimedRun, states: seq<ClaimedRun>, steps: seq<Happening>, sent: seq<Sent>,
                           end: End, b: ClaimedRun)
  {
    && Joins(env, def, a, states, steps, sent, b) && Over(b)
    && steps != [] && end == EndOf(states[|steps| - 1], steps[|steps| - 1])
  }

  /** The loop that starts in `a` sends exactly `sent` and returns `end`, leaving the claim in `b`. */
  ghost predicate Ends(env: Env, def: Definition, a: ClaimedRun, sent: seq<Sent>, end: End, b: ClaimedRun) {
    exists states, steps :: LastStep(env, def, a, states, steps, sent, end, b)
  }

  lemma ReachesItself(env: Env, def: Definition, c: ClaimedRun)
    ensures Reaches(env, def, c, [], c)
  {
    assert Joins(env, def, c, [c], [], [], c);
  }

  lemma ReachesNext(env: Env, def: Definition, a: ClaimedRun, sent: seq<Sent>, b: ClaimedRun, h: Happening, c: ClaimedRun)
    requires Reaches(env, def, a, sent, b) && Follows(env, def, b, h, c)
    ensures Reaches(env, def, a, sent + Sending(b, c), c)
    ensures Over(c) ==> Ends(env, def, a, sent + Sending(b, c), EndOf(b, h), c)
  {
    hide Follows, Sending, EndOf, Over;
    var states, steps :| Joins(env, def, a, states, steps, sent, b);
    var longer, more := states + [c], steps + [h];
    forall k | 0 <= k < |more| ensures Follows(env, def, longer[k], more[k], longer[k + 1]) {
      if k == |steps| {
        assert longer[k] == b && longer[k + 1] == c;
      }
    }
    assert longer[..|longer| - 1] == states && longer[|longer| - 2] == b;
    assert Joins(env, def, a, longer, more, sent + Sending(b, c), c);
    if Over(c) {
      assert LastStep(env, def, a, longer, more, sent + Sending(b, c), EndOf(b, h), c);
    }
  }

  /* ---- the answers determine the path ---- */

  /** Two steps from one state agree. */
  ghost predicate Same(c: ClaimedRun, h1: Happening, c1: ClaimedRun, h2: Happening, c2: ClaimedRun) {
    c1 == c2 && (Over(c1) ==> EndOf(c, h1) == EndOf(c, h2))
  }

  lemma OverIsOver(env: Env, def: Definition, c: ClaimedRun, h: Happening, after: ClaimedRun)
    requires Follows(env, def, c, h, after)
    ensures !Over(c) && !c.phase.AwaitFail?
  {
  }

  lemma DrivingDetermined(env: Env, def: Definition, c: ClaimedRun, h1: Happening, c1: ClaimedRun, h2: Happening, c2: ClaimedRun)
    requires Follows(env, def, c, h1, c1) && Follows(env, def, c, h2, c2) && c.phase.Driving?
    ensures Same(c, h1, c1, h2, c2)
  {
    hide ContextFrom, Resolve, Executed;
  }

  lemma UserCodeDetermined(env: Env, def: Definition, c: ClaimedRun, h1: Happening, c1: ClaimedRun, h2: Happening, c2: ClaimedRun)
    requires Follows(env, def, c, h1, c1) && Follows(env, def, c, h2, c2) && InUserCode(c)
    ensures Same(c, h1, c1, h2, c2)
  {
    hide Resolve, Executed;
  }

  lemma SentDetermined(env: Env, def: Definition, c: ClaimedRun, h1: Happening, c1: ClaimedRun, h2: Happening, c2: ClaimedRun)
    requires Follows(env, def, c, h1, c1) && Follows(env, def, c, h2, c2) && c.phase.AwaitDrive?
    ensures Same(c, h1, c1, h2, c2)
  {
  }

  lemma WaitDetermined(env: Env, def: Definition, c: ClaimedRun, h1: Happening, c1: ClaimedRun, h2: Happening, c2: ClaimedRun)
    requires Follows(env, def, c, h1, c1) && Follows(env, def, c, h2, c2) && c.phase.InTx?
    ensures Same(c, h1, c1, h2, c2)
  {
  }

  lemma StepDetermined(env: Env, def: Definition, c: ClaimedRun, h1: Happening, c1: ClaimedRun, h2: Happening, c2: ClaimedRun)
    requires Follows(env, def, c, h1, c1) && Follows(env, def, c, h2, c2)
    ensures Same(c, h1, c1, h2, c2)
  {
    OverIsOver(env, def, c, h1, c1);
    hide Follows, Same;
    match c.phase {
      case Driving => DrivingDetermined(env, def, c, h1, c1, h2, c2);
      case InStep(_) => UserCodeDetermined(env, def, c, h1, c1, h2, c2);
      case Resolving(_) => UserCodeDetermined(env, def, c, h1, c1, h2, c2);
      case AwaitDrive => SentDetermined(env, def, c, h1, c1, h2, c2);
      case InTx => WaitDetermined(env, def, c, h1, c1, h2, c2);
    }
  }

  lemma {:induction false} PathDetermined(env: Env, def: Definition, a: seq<ClaimedRun>, h: seq<Happening>, b: seq<ClaimedRun>, g: seq<Happening>, k: nat)
    requires IsPath(env, def, a, h) && IsPath(env, def, b, g) && a[0] == b[0] && k <= |h| && k <= |g|
    ensures a[..k + 1] == b[..k + 1]
  {
    hide Follows;
    if k == 0 {
      assert a[..1] == [a[0]] && b[..1] == [b[0]];
    } else {
      PathDetermined(env, def, a, h, b, g, k - 1);
      assert a[..k][k - 1] == b[..k][k - 1];
      StepDetermined(env, def, a[k - 1], h[k - 1], a[k], g[k - 1], b[k]);
      assert a[..k + 1] == a[..k] + [a[k]] && b[..k + 1] == b[..k] + [b[k]];
    }
  }

  /** From one start and with one world, the loop sends one sequence of statements and returns one result. */
  lemma LoopIsDetermined(env: Env, def: Definition, a: ClaimedRun, sent1: seq<Sent>, end1: End, b1: ClaimedRun,
                         sent2: seq<Sent>, end2: End, b2: ClaimedRun)
    requires Ends(env, def, a, sent1, end1, b1) && Ends(env, def, a, sent2, end2, b2)
    ensures sent1 == sent2 && end1 == end2 && b1 == b2
  {
    hide Follows, Over, EndOf, Sending, SentAlong;
    var s1, h1 :| LastStep(env, def, a, s1, h1, sent1, end1, b1);
    var s2, h2 :| LastStep(env, def, a, s2, h2, sent2, end2, b2);
    if |h1| < |h2| {
      NoStepPast(env, def, s1, h1, s2, h2);
    } else if |h2| < |h1| {
      NoStepPast(env, def, s2, h2, s1, h1);
    }
    PathDetermined(env, def, s1, h1, s2, h2, |h1|);
    assert s1[..|s1|] == s1 && s2[..|s2|] == s2;
    var n := |h1| - 1;
    StepDetermined(env, def, s1[n], h1[n], s1[n + 1], h2[n], s2[n + 1]);
  }

  /** A path that ends the loop is not the beginning of a longer one. */
  lemma NoStepPast(env: Env, def: Definition, a: seq<ClaimedRun>, h: seq<Happening>, b: seq<ClaimedRun>, g: seq<Happening>)
    requires IsPath(env, def, a, h) && IsPath(env, def, b, g) && a[0] == b[0] && Over(a[|h|])
    ensures |g| <= |h|
  {
    hide Follows, Over;
    if |h| < |g| {
      PathDetermined(env, def, a, h, b, g, |h|);
      assert a[..|h| + 1][|h|] == b[..|h| + 1][|h|];
      OverIsOver(env, def, b[|h|], g[|h|], b[|h| + 1]);
    }
  }
}
