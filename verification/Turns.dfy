/** One operation of the drive loop: what it sends, how it goes, and that it follows the claim automaton. */
module Turns {
  import opened Basics
  import opened Workflow
  import opened Rows
  import opened Worker
  import opened DrivePath

  /* ---- one operation ---- */

  /** How one operation went: a stored value, parked, the lease lost, or an error. */
  datatype Turn = Stored(value: Json) | Parked | Lost | Broke(error: string)

  function EndFor(r: Turn): End {
    match r
    case Stored(_) => Ended
    case Parked => Ended
    case Lost => LostLease
    case Broke(error) => Errored(error)
  }

  /** Where the loop stands after an operation that sent `sent` in all: it goes on only after a stored value
      that was not the last. */
  ghost predicate Goes(env: Env, def: Definition, a: ClaimedRun, sent: seq<Sent>, r: Turn, complete: bool, after: ClaimedRun) {
    if r.Stored? && !complete then Reaches(env, def, a, sent, after) else Ends(env, def, a, sent, EndFor(r), after)
  }

  /** The claim after its operation went `r`. */
  ghost predicate Leaves(c: ClaimedRun, complete: bool, r: Turn, after: ClaimedRun)
    requires c.index < |c.values|
  {
    && (complete || !r.Stored? ==> after.index == c.index)
    && match r
       case Stored(v) =>
         && after.values == c.values[c.index := Some(v)] && after.run == c.run && after.input == c.input
         && if complete then after.phase.Done? else after.phase.Driving? && after.index == c.index + 1 && Idle(after)
       case Broke(error) => after.phase == Failing(error)
       case _ => after.phase.Done?
  }

  /** A commit alone: stored exactly when it was accepted, and then the earlier value if there was one. */
  ghost predicate CommitSaid(answer: CommitAnswer, value: Json, r: Turn) {
    match r
    case Stored(v) => answer.Replied? && answer.reply.Advanced? && v == (if answer.reply.existing.Some? then answer.reply.existing.value else value)
    case Lost => answer == Replied(NoRow)
    case Broke(error) => answer == CommitBroke(error)
    case Parked => false
  }

  /** A commit inside a wait transaction: it also takes the transaction to commit. */
  ghost predicate DeliverySaid(answer: CommitAnswer, txDone: Option<string>, value: Json, r: Turn) {
    if answer.Replied? && answer.reply.Advanced? && txDone.Some? then r == Broke(txDone.value) else CommitSaid(answer, value, r)
  }

  /** A statement that gives the lease back: parked exactly when it affected a row. */
  ghost predicate ParkSaid(answer: Affected, r: Turn) {
    match r
    case Parked => answer.Rows? && answer.n > 0
    case Lost => answer == Rows(0)
    case Broke(error) => answer == ExecBroke(error)
    case Stored(_) => false
  }

  ghost predicate WaitParkSaid(answer: Affected, txDone: Option<string>, r: Turn) {
    if answer.Rows? && answer.n > 0 && txDone.Some? then r == Broke(txDone.value) else ParkSaid(answer, r)
  }

  /** A step sends its result exactly when it returned one. */
  ghost predicate StepSaid(env: Env, def: Definition, sc: StepContext, index: nat, r: Turn, more: seq<Sent>) {
    match env.ran(index, sc)
    case StepFailed(error) => more == [] && r == Broke(error)
    case Returned(value) =>
      var complete := index + 1 == |def.ops|;
      more == [Commits(index, value, complete)] && CommitSaid(env.committed(index, value, complete), value, r)
  }

  /** A wait delivers the event it found, parks when it found none, and fails before sending either. */
  ghost predicate WaitSaid(env: Env, def: Definition, key: string, timeout: nat, index: nat, r: Turn, more: seq<Sent>) {
    if env.begun(index).Some? then more == [] && r == Broke(env.begun(index).value)
    else if env.locked(index).Some? then more == [] && r == Broke(env.locked(index).value)
    else
      match env.looked(index, key)
      case LookupBroke(error) => more == [] && r == Broke(error)
      case Miss => more == [Parks(index, key, timeout)] && WaitParkSaid(env.parked(index, key), env.txDone(index), r)
      case Hit(e) =>
        var complete := index + 1 == |def.ops|;
        var received := Received(e.payload);
        more == [Commits(index, received, complete)] && DeliverySaid(env.committed(index, received, complete), env.txDone(index), received, r)
  }

  /** What the operation at a position sends and how it goes. */
  ghost predicate Said(env: Env, def: Definition, id: RunId, input: Json, values: seq<Option<Json>>, p: nat, r: Turn, more: seq<Sent>)
    requires p < |def.ops| == |values|
  {
    match def.ops[p]
    case Step(_, _) => StepSaid(env, def, ContextFrom(def, id, input, values, p), p, r, more)
    case Sleep(d) => more == [Sleeps(p + 1, d)] && ParkSaid(env.slept(p), r)
    case Wait(_, _, timeout) =>
      match Resolve(def.ops[p], ContextFrom(def, id, input, values, p))
      case None => more == [] && r == Broke(KEY_ERROR)
      case Some(key) => WaitSaid(env, def, key, timeout, p, r, more)
  }

  /* ---- steps of the automaton ---- */

  /** Between operations. */
  ghost predicate Drives(def: Definition, c: ClaimedRun) {
    c.phase.Driving? && Idle(c) && c.index <= |c.values| == |def.ops|
  }

  /** An operation without a value is next. */
  ghost predicate Due(def: Definition, c: ClaimedRun) {
    Drives(def, c) && c.index < |def.ops| && c.values[c.index].None?
  }

  /** A row that gives the answer, so that the answer is one the server could send. */
  function RowAnswering(index: nat, reply: CommitReply): Run {
    var row := Inserted(WorkflowKey("", 1), "", 1, 0, TIMED_OUT, None);
    match reply
    case NoRow => row
    case Advanced(existing) =>
      row.(state := Leased, token := Some(0), leaseUntil := Some(1),
           checkpoints := if existing.Some? then map[index := existing.value] else map[])
  }

  lemma RowGivesReply(index: nat, value: Json, complete: bool, reply: CommitReply)
    ensures CommitStep(RowAnswering(index, reply), 0, 0, index, value, complete).1 == reply
    ensures reply.Advanced? <==> Fence(RowAnswering(index, reply), 0, 0)
    ensures reply.Advanced? <==> CommitMatches(RowAnswering(index, reply), 0, 0, index)
  {
  }

  lemma Skips(env: Env, def: Definition, a: ClaimedRun, sent: seq<Sent>, c: ClaimedRun) returns (after: ClaimedRun)
    requires Reaches(env, def, a, sent, c) && Drives(def, c) && CanSkip(c) && !env.stopped(c.index)
    ensures Reaches(env, def, a, sent, after) && Drives(def, after) && after == c.(index := c.index + 1)
  {
    hide Reaches, Ends;
    after := Skip(c);
    ReachesNext(env, def, a, sent, c, Own(SkipPosition), after);
    assert sent + [] == sent;
  }

  lemma Stops(env: Env, def: Definition, a: ClaimedRun, sent: seq<Sent>, c: ClaimedRun) returns (after: ClaimedRun)
    requires Reaches(env, def, a, sent, c) && Drives(def, c) && c.index < |def.ops| && env.stopped(c.index)
    ensures Ends(env, def, a, sent, Stopped, after) && after.phase.Done? && after.index == c.index
  {
    hide Reaches, Ends;
    after := Crash(c);
    ReachesNext(env, def, a, sent, c, Own(CrashClaim), after);
    assert sent + [] == sent;
  }

  lemma Begins(env: Env, def: Definition, a: ClaimedRun, sent: seq<Sent>, c: ClaimedRun) returns (after: ClaimedRun)
    requires Reaches(env, def, a, sent, c) && Drives(def, c) && CanBegin(def, c) && (c.index < |def.ops| ==> !env.stopped(c.index))
    ensures after == Begin(def, c)
    ensures Reaches(env, def, a, if after.drive.Some? then sent + [ToSent(after.drive.value)] else sent, after)
  {
    hide Reaches, Ends;
    after := Begin(def, c);
    ReachesNext(env, def, a, sent, c, Own(BeginOperation), after);
    assert sent + [] == sent;
  }

  /** User code failed or panicked. */
  lemma Fails(env: Env, def: Definition, a: ClaimedRun, sent: seq<Sent>, c: ClaimedRun, error: string) returns (after: ClaimedRun)
    requires Reaches(env, def, a, sent, c) && InUserCode(c) && MoveAgrees(env, def, c, UserCodeFails(error))
    ensures Ends(env, def, a, sent, Errored(error), after) && after == Err(c, error)
  {
    hide Reaches, Ends, MoveAgrees;
    after := Err(c, error);
    ReachesNext(env, def, a, sent, c, Own(UserCodeFails(error)), after);
    assert sent + [] == sent;
  }

  /** An error while a statement or a transaction is in flight. */
  lemma GaveUp(env: Env, def: Definition, a: ClaimedRun, sent: seq<Sent>, c: ClaimedRun, error: string) returns (after: ClaimedRun)
    requires Reaches(env, def, a, sent, c) && (c.phase.AwaitDrive? || c.phase.InTx?) && Breaks(env, c, error)
    ensures Ends(env, def, a, sent, Errored(error), after) && after == Err(c, error)
  {
    hide Reaches, Ends, Breaks;
    after := Err(c, error);
    assert Sending(c, after) == [];
    ReachesNext(env, def, a, sent, c, Own(GiveUp(error)), after);
    assert sent + [] == sent;
  }

  lemma InPhase(env: Env, def: Definition, a: ClaimedRun, sent: seq<Sent>, c: ClaimedRun, phase: TxPhase) returns (after: ClaimedRun)
    requires Reaches(env, def, a, sent, c) && Waits(def, c) && TxAgrees(env, c, phase)
    ensures after == c.(tx := Some(c.tx.value.(phase := phase))) && Waits(def, after)
    ensures Reaches(env, def, a, sent + Sending(c, after), after)
  {
    hide Reaches, Ends, TxAgrees;
    after := c.(tx := Some(c.tx.value.(phase := phase)));
    ReachesNext(env, def, a, sent, c, TxTo(phase), after);
  }

  /** The claim while its wait transaction for the operation at its index is open. */
  ghost predicate Waits(def: Definition, c: ClaimedRun) {
    && c.phase.InTx? && c.tx.Some? && c.tx.value.index == c.index < |c.values| == |def.ops|
    && c.tx.value.complete == (c.index + 1 == |def.ops|) && c.drive.None? && c.fail.None?
  }

  /** Opening the transaction. */
  lemma Opens(env: Env, def: Definition, a: ClaimedRun, sent: seq<Sent>, c: ClaimedRun, key: string) returns (after: ClaimedRun)
    requires Reaches(env, def, a, sent, c) && CanOpen(def, c) && Idle(c) && c.index < |c.values| == |def.ops|
    requires Resolve(def.ops[c.index], c.phase.sc) == Some(key)
    ensures Reaches(env, def, a, sent, after) && Waits(def, after)
    ensures after.tx == Some(WaitTx(c.index, key, def.ops[c.index].timeout, c.index + 1 == |def.ops|, env.begunAt(c.index), Begun))
    ensures after.values == c.values && after.index == c.index && after.run == c.run && after.input == c.input
  {
    hide Reaches, Ends, Resolve;
    after := Open(def, c, env.begunAt(c.index));
    ReachesNext(env, def, a, sent, c, Own(OpenWait), after);
    assert sent + [] == sent;
  }

  /** The server executes the statement of the loop, or settles the wait, with this reply. */
  lemma IsServed(env: Env, def: Definition, a: ClaimedRun, sent: seq<Sent>, c: ClaimedRun, x: Exec, reply: CommitReply) returns (after: ClaimedRun)
    requires Reaches(env, def, a, sent, c) && CanExecute(c, x, 0)
    requires ServerAgrees(env, c, x, 0, RowAnswering(c.index, reply), 0)
    ensures after == Executed(c, 0, RowAnswering(c.index, reply), 0, x).claim
    ensures Sending(c, after) == [] ==> Reaches(env, def, a, sent, after)
    ensures Sending(c, after) == [] && Over(after) ==>
              Ends(env, def, a, sent, if Accepted(c, x, 0, RowAnswering(c.index, reply), 0) then Ended else LostLease, after)
  {
    hide Reaches, Ends, ServerAgrees, Executed, Sending, Accepted, CanExecute;
    after := Executed(c, 0, RowAnswering(c.index, reply), 0, x).claim;
    ReachesNext(env, def, a, sent, c, Served(x, 0, RowAnswering(c.index, reply), 0), after);
    assert sent + [] == sent;
  }

  /* ---- the statements and the wait transaction ---- */

  /** commitStep */
  method CommitValue(env: Env, def: Definition, ghost a: ClaimedRun, ghost sent: seq<Sent>, ghost c: ClaimedRun,
                     index: nat, value: Json, complete: bool)
    returns (r: Turn, ghost after: ClaimedRun)
    requires Reaches(env, def, a, sent, c) && c.phase.AwaitDrive? && c.drive == Some(Commit(index, value, complete)) && c.fail.None? && c.tx.None?
    requires c.index == index < |c.values|
    ensures Goes(env, def, a, sent, r, complete, after) && Leaves(c, complete, r, after)
    ensures CommitSaid(env.committed(index, value, complete), value, r)
  {
    hide Reaches, Ends;
    match env.committed(index, value, complete) {
      case CommitBroke(error) =>
        r := Broke(error);
        after := GaveUp(env, def, a, sent, c, error);
      case Replied(reply) =>
        RowGivesReply(index, value, complete, reply);
        after := IsServed(env, def, a, sent, c, ExecDrive(0), reply);
        match reply {
          case NoRow => r := Lost;
          case Advanced(existing) => r := Stored(if existing.Some? then existing.value else value);
        }
    }
  }

  /** The delivering end of waitForEvent. */
  method Deliver(env: Env, def: Definition, ghost a: ClaimedRun, ghost sent: seq<Sent>, ghost c: ClaimedRun,
                 index: nat, received: Json, complete: bool)
    returns (r: Turn, ghost after: ClaimedRun)
    requires Reaches(env, def, a, sent, c) && Waits(def, c) && c.index == index && complete == (index + 1 == |def.ops|)
    requires c.tx.value.phase.Found? && received == Received(c.tx.value.phase.event.payload)
    ensures Goes(env, def, a, sent, r, complete, after) && Leaves(c, complete, r, after)
    ensures DeliverySaid(env.committed(index, received, complete), env.txDone(index), received, r)
  {
    hide Reaches, Ends, Received;
    match env.committed(index, received, complete) {
      case CommitBroke(error) =>
        r := Broke(error);
        after := GaveUp(env, def, a, sent, c, error);
      case Replied(reply) =>
        if reply.Advanced? && env.txDone(index).Some? {
          r := Broke(env.txDone(index).value);
          after := GaveUp(env, def, a, sent, c, env.txDone(index).value);
          return;
        }
        RowGivesReply(index, received, complete, reply);
        after := IsServed(env, def, a, sent, c, WaitSettle, reply);
        match reply {
          case NoRow => r := Lost;
          case Advanced(existing) => r := Stored(if existing.Some? then existing.value else received);
        }
    }
  }

  /** The parking end of waitForEvent. */
  method ParkForEvent(env: Env, def: Definition, ghost a: ClaimedRun, ghost sent: seq<Sent>, ghost c: ClaimedRun, index: nat, key: string)
    returns (r: Turn, ghost after: ClaimedRun)
    requires Reaches(env, def, a, sent, c) && Waits(def, c) && c.index == index && c.tx.value.phase.Empty? && c.tx.value.key == key
    ensures Goes(env, def, a, sent, r, index + 1 == |def.ops|, after) && Leaves(c, index + 1 == |def.ops|, r, after)
    ensures WaitParkSaid(env.parked(index, key), env.txDone(index), r)
  {
    hide Reaches, Ends;
    match env.parked(index, key) {
      case ExecBroke(error) =>
        r := Broke(error);
        after := GaveUp(env, def, a, sent, c, error);
      case Rows(n) =>
        if n > 0 && env.txDone(index).Some? {
          r := Broke(env.txDone(index).value);
          after := GaveUp(env, def, a, sent, c, env.txDone(index).value);
          return;
        }
        ghost var reply := if n == 0 then NoRow else Advanced(None);
        RowGivesReply(index, TIMED_OUT, false, reply);
        after := IsServed(env, def, a, sent, c, WaitSettle, reply);
        r := if n == 0 then Lost else Parked;
    }
  }

  /** waitForEvent */
  method WaitForEvent(env: Env, def: Definition, ghost a: ClaimedRun, ghost sent: seq<Sent>, ghost c: ClaimedRun,
                      index: nat, key: string, timeout: nat, complete: bool)
    returns (r: Turn, more: seq<Sent>, ghost after: ClaimedRun)
    requires Reaches(env, def, a, sent, c) && CanOpen(def, c) && Idle(c) && c.index == index < |c.values| == |def.ops|
    requires Resolve(def.ops[index], c.phase.sc) == Some(key) && def.ops[index].timeout == timeout && complete == (index + 1 == |def.ops|)
    ensures Goes(env, def, a, sent + more, r, complete, after) && Leaves(c, complete, r, after)
    ensures WaitSaid(env, def, key, timeout, index, r, more)
  {
    hide Reaches, Ends, Resolve, CanOpen, Goes, DeliverySaid, WaitParkSaid;
    more := [];
    assert sent + [] == sent;
    after := Opens(env, def, a, sent, c, key);
    if env.begun(index).Some? {
      r := Broke(env.begun(index).value);
      after := GaveUp(env, def, a, sent, after, env.begun(index).value);
      WentOver(env, def, a, sent, r, complete, after);
      return;
    }
    if env.locked(index).Some? {
      r := Broke(env.locked(index).value);
      after := GaveUp(env, def, a, sent, after, env.locked(index).value);
      WentOver(env, def, a, sent, r, complete, after);
      return;
    }
    after := InPhase(env, def, a, sent, after, Locked);
    match env.looked(index, key) {
      case Hit(e) =>
        after := InPhase(env, def, a, sent, after, Found(e, env.look(index)));
        more := [Commits(index, Received(e.payload), complete)];
        r, after := Deliver(env, def, a, sent + more, after, index, Received(e.payload), complete);
      case LookupBroke(error) =>
        r := Broke(error);
        after := GaveUp(env, def, a, sent, after, error);
        WentOver(env, def, a, sent, r, complete, after);
      case Miss =>
        after := InPhase(env, def, a, sent, after, Empty(env.look(index)));
        more := [Parks(index, key, timeout)];
        r, after := ParkForEvent(env, def, a, sent + more, after, index, key);
    }
  }

  lemma WentOver(env: Env, def: Definition, a: ClaimedRun, sent: seq<Sent>, r: Turn, complete: bool, after: ClaimedRun)
    requires Ends(env, def, a, sent, EndFor(r), after) && !r.Stored?
    ensures Goes(env, def, a, sent, r, complete, after)
  {
  }

  /** A sent statement that ends the loop whatever it matched: parkForSleep and completeRun. */
  method Close(env: Env, affected: Affected, def: Definition, ghost a: ClaimedRun, ghost sent: seq<Sent>, ghost c: ClaimedRun)
    returns (r: Turn, ghost after: ClaimedRun)
    requires Reaches(env, def, a, sent, c) && c.phase.AwaitDrive? && c.drive.Some? && !c.drive.value.Commit? && c.tx.None?
    requires affected == if c.drive.value.SleepUntil? then env.slept(c.index) else env.finished(c.drive.value.output)
    ensures Ends(env, def, a, sent, EndFor(r), after) && after.index == c.index
    ensures if r.Broke? then after.phase == Failing(r.error) else after.phase.Done?
    ensures ParkSaid(affected, r)
  {
    hide Reaches, Ends;
    match affected {
      case ExecBroke(error) =>
        r := Broke(error);
        after := GaveUp(env, def, a, sent, c, error);
      case Rows(n) =>
        ghost var reply := if n == 0 then NoRow else Advanced(None);
        RowGivesReply(c.index, TIMED_OUT, false, reply);
        after := IsServed(env, def, a, sent, c, ExecDrive(0), reply);
        r := if n == 0 then Lost else Parked;
    }
  }

  /* ---- the cases of the loop ---- */

  /** The step case. */
  method StepTurn(env: Env, def: Definition, ghost a: ClaimedRun, ghost sent: seq<Sent>, ghost c: ClaimedRun, sc: StepContext, index: nat)
    returns (r: Turn, more: seq<Sent>, ghost after: ClaimedRun)
    requires Plays(env, def) && Reaches(env, def, a, sent, c) && Due(def, c) && !env.stopped(index) && c.index == index && def.ops[index].Step?
    requires sc == ContextFrom(def, c.run, c.input, c.values, index)
    ensures Goes(env, def, a, sent + more, r, index + 1 == |def.ops|, after) && Leaves(c, index + 1 == |def.ops|, r, after)
    ensures StepSaid(env, def, sc, index, r, more)
  {
    hide Reaches, Ends, CommitSaid;
    more := [];
    assert sent + [] == sent;
    after := Begins(env, def, a, sent, c);
    match env.ran(index, sc) {
      case StepFailed(error) =>
        r := Broke(error);
        after := Fails(env, def, a, sent, after, error);
      case Returned(value) =>
        var complete := index + 1 == |def.ops|;
        ghost var back := Return(def, after, value);
        ReachesNext(env, def, a, sent, after, Own(StepReturns(value)), back);
        more := [Commits(index, value, complete)];
        hide Goes;
        r, after := CommitValue(env, def, a, sent + more, back, index, value, complete);
    }
  }

  /** The wait case. */
  method WaitTurn(env: Env, def: Definition, ghost a: ClaimedRun, ghost sent: seq<Sent>, ghost c: ClaimedRun, sc: StepContext, index: nat)
    returns (r: Turn, more: seq<Sent>, ghost after: ClaimedRun)
    requires Reaches(env, def, a, sent, c) && Due(def, c) && !env.stopped(index) && c.index == index && def.ops[index].Wait?
    requires sc == ContextFrom(def, c.run, c.input, c.values, index)
    ensures Goes(env, def, a, sent + more, r, index + 1 == |def.ops|, after) && Leaves(c, index + 1 == |def.ops|, r, after)
    ensures match Resolve(def.ops[index], sc)
            case None => more == [] && r == Broke(KEY_ERROR)
            case Some(key) => WaitSaid(env, def, key, def.ops[index].timeout, index, r, more)
  {
    hide Reaches, Ends, Resolve, WaitSaid;
    more := [];
    assert sent + [] == sent;
    after := Begins(env, def, a, sent, c);
    match Resolve(def.ops[index], sc) {
      case None =>
        r := Broke(KEY_ERROR);
        after := Fails(env, def, a, sent, after, KEY_ERROR);
      case Some(key) =>
        hide Goes;
        r, more, after := WaitForEvent(env, def, a, sent, after, index, key, def.ops[index].timeout, index + 1 == |def.ops|);
    }
  }

  /** One operation, whatever its kind. */
  method TakeTurn(env: Env, def: Definition, ghost a: ClaimedRun, ghost sent: seq<Sent>, ghost c: ClaimedRun, id: RunId, input: Json,
                  values: seq<Option<Json>>, index: nat)
    returns (r: Turn, more: seq<Sent>, ghost after: ClaimedRun)
    requires Plays(env, def) && Reaches(env, def, a, sent, c) && Due(def, c) && !env.stopped(index)
    requires c.values == values && c.index == index && c.run == id && c.input == input
    ensures Goes(env, def, a, sent + more, r, index + 1 == |def.ops|, after) && Leaves(c, index + 1 == |def.ops|, r, after)
    ensures Said(env, def, id, input, values, index, r, more)
  {
    hide Reaches, Ends, StepSaid, WaitSaid, Resolve, Plays, ParkSaid;
    match def.ops[index] {
      case Step(_, _) =>
        var sc := ContextFrom(def, id, input, values, index);
        hide Goes;
        r, more, after := StepTurn(env, def, a, sent, c, sc, index);
      case Sleep(d) =>
        more := [Sleeps(index + 1, d)];
        after := Begins(env, def, a, sent, c);
        r, after := Close(env, env.slept(index), def, a, sent + more, after);
        assert !r.Stored? by {
          ParkedNotStored(env.slept(index), r);
        }
      case Wait(_, _, _) =>
        var sc := ContextFrom(def, id, input, values, index);
        hide Goes;
        r, more, after := WaitTurn(env, def, a, sent, c, sc, index);
    }
  }

  lemma ParkedNotStored(answer: Affected, r: Turn)
    requires ParkSaid(answer, r)
    ensures !r.Stored?
  {
  }
}
