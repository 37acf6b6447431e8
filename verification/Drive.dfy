/** The drive loop as it runs in a worker, against whatever the world around it answers. */
module Drive {
  import opened Basics
  import opened Workflow
  import opened Rows
  import opened Worker
  import opened DrivePath
  import opened Turns

  /* ---- what the loop sends ---- */

  /** A statement belongs to an operation that had no value when the run was claimed. */
  ghost predicate FitsPosition(def: Definition, start: ClaimedRun, x: Sent) {
    start.index <= Position(x) <= |def.ops| == |start.values| &&
    match x
    case Commits(i, _, complete) => i < |def.ops| && Records(def.ops[i]) && start.values[i].None? && (complete <==> i + 1 == |def.ops|)
    case Sleeps(next, d) => 0 < next <= |def.ops| && def.ops[next - 1] == Sleep(d)
    case Parks(i, key, timeout) => i < |def.ops| && def.ops[i].Wait? && def.ops[i].timeout == timeout && start.values[i].None? && key != ""
    case Finishes(cursor, _) => cursor == |def.ops|
  }

  /** Positions rise, and only the last statement can be something other than a commit. */
  ghost predicate Orderly(def: Definition, start: ClaimedRun, sent: seq<Sent>) {
    && (forall k :: 0 <= k < |sent| ==> FitsPosition(def, start, sent[k]))
    && (forall j, k :: 0 <= j < k < |sent| ==> Position(sent[j]) < Position(sent[k]) && sent[j].Commits?)
  }

  /** So far only commits, all below `bound`. */
  ghost predicate OnlyCommits(def: Definition, start: ClaimedRun, sent: seq<Sent>, bound: nat) {
    Orderly(def, start, sent) && forall k :: 0 <= k < |sent| ==> Position(sent[k]) < bound && sent[k].Commits?
  }

  ghost predicate SentAt(sent: seq<Sent>, p: nat) {
    exists k :: 0 <= k < |sent| && Position(sent[k]) == p
  }

  /** No position below `bound` that had no value is passed without its statement. */
  ghost predicate Covers(start: ClaimedRun, sent: seq<Sent>, bound: nat) {
    forall p :: start.index <= p < bound && p < |start.values| && start.values[p].None? ==> SentAt(sent, p)
  }

  lemma LogGrows(def: Definition, start: ClaimedRun, sent: seq<Sent>, bound: nat, x: Sent)
    requires OnlyCommits(def, start, sent, bound) && Covers(start, sent, bound) && FitsPosition(def, start, x) && Position(x) == bound
    ensures Orderly(def, start, sent + [x]) && Covers(start, sent + [x], bound + 1)
    ensures x.Commits? ==> OnlyCommits(def, start, sent + [x], bound + 1)
  {
    hide FitsPosition;
    var longer := sent + [x];
    forall p | start.index <= p < bound + 1 && p < |start.values| && start.values[p].None? ensures SentAt(longer, p) {
      if p < bound {
        var k :| 0 <= k < |sent| && Position(sent[k]) == p;
        assert longer[k] == sent[k];
      } else {
        assert longer[|sent|] == x;
      }
    }
  }

  /** Nothing from the start on stops, fails, parks or is rejected. */
  ghost predicate Undisturbed(env: Env, def: Definition, start: ClaimedRun) {
    && (forall p :: start.index <= p < |def.ops| ==> !env.stopped(p))
    && (forall p :: start.index <= p < |def.ops| && p < |start.values| && start.values[p].None? ==> Smooth(env, def, p))
    && (forall output :: env.finished(output).Rows? && env.finished(output).n > 0)
  }

  ghost predicate Smooth(env: Env, def: Definition, p: nat)
    requires p < |def.ops|
  {
    && (forall v, complete :: env.committed(p, v, complete).Replied? && env.committed(p, v, complete).reply.Advanced?)
    && match def.ops[p]
       case Step(_, _) => forall sc :: env.ran(p, sc).Returned?
       case Sleep(_) => false
       case Wait(_, _, _) =>
         && env.begun(p).None? && env.locked(p).None? && env.txDone(p).None?
         && (forall sc :: Resolve(def.ops[p], sc).Some?) && (forall key :: env.looked(p, key).Hit?)
  }

  lemma SmoothStores(env: Env, def: Definition, id: RunId, input: Json, values: seq<Option<Json>>, p: nat, r: Turn, more: seq<Sent>)
    requires p < |def.ops| == |values| && Smooth(env, def, p) && Said(env, def, id, input, values, p, r, more)
    ensures r.Stored?
  {
  }

  /** The statement that completes the run: the commit of the last operation when it had no value, else completeRun. */
  ghost predicate Completes(def: Definition, start: ClaimedRun, x: Sent) {
    if start.index < |def.ops| == |start.values| && start.values[|def.ops| - 1].None? then
      x.Commits? && x.index == |def.ops| - 1 && x.complete
    else x.Finishes?
  }

  /* ---- replay: the loop computes the interpretation ---- */

  ghost predicate Agrees(values: seq<Option<Json>>, full: seq<Option<Json>>) {
    |values| == |full| && forall i :: 0 <= i < |values| && values[i].Some? ==> values[i] == full[i]
  }

  ghost predicate Filled(def: Definition, values: seq<Option<Json>>, k: nat) {
    k <= |values| == |def.ops| && forall i :: 0 <= i < k ==> (values[i].Some? <==> Records(def.ops[i]))
  }

  /** Stored values the database reports, and deliveries it accepts, are the ones of `full`. */
  ghost predicate Trusted(env: Env, def: Definition, full: seq<Option<Json>>)
    requires |full| == |def.ops|
  {
    && (forall i, v, done :: 0 <= i < |full| ==> env.committed(i, v, done).Replied? ==>
         match env.committed(i, v, done).reply case Advanced(Some(stored)) => full[i] == Some(stored) case _ => true)
    && (forall i, key :: 0 <= i < |full| && def.ops[i].Wait? && env.looked(i, key).Hit? ==>
         env.committed(i, Received(env.looked(i, key).event.payload), i + 1 == |full|) == Replied(Advanced(None)) ==>
         full[i] == Some(Received(env.looked(i, key).event.payload)))
  }

  ghost predicate Replays(env: Env, def: Definition, start: ClaimedRun, results: (nat, StepContext) -> Json, outcomes: map<nat, Json>) {
    && Deterministic(def, results) && start.index <= |def.ops|
    && var full := Interpret(def, start.run, start.input, results, outcomes, |def.ops|);
       OnCourse(env, def, full, start.values, start.index)
  }

  /** The values in memory are those of `full`, completely below `k`. */
  ghost predicate OnCourse(env: Env, def: Definition, full: seq<Option<Json>>, values: seq<Option<Json>>, k: nat) {
    |full| == |def.ops| && Agrees(values, full) && Filled(def, values, k) && Trusted(env, def, full)
  }

  /** Step results and the final output are those of the straight-line interpretation. */
  ghost predicate Canonical(def: Definition, full: seq<Option<Json>>, x: Sent)
    requires WellFormed(def) && |full| == |def.ops|
  {
    match x
    case Commits(i, v, _) => i < |full| && (def.ops[i].Step? ==> full[i] == Some(v))
    case Finishes(_, output) => output == InterpretedOutput(def, full)
    case _ => true
  }

  ghost predicate CanonicalAll(def: Definition, full: seq<Option<Json>>, sent: seq<Sent>)
    requires WellFormed(def) && |full| == |def.ops|
  {
    forall k :: 0 <= k < |sent| ==> Canonical(def, full, sent[k])
  }

  lemma {:induction false} InterpretPrefix(def: Definition, id: RunId, input: Json, results: (nat, StepContext) -> Json,
                                           outcomes: map<nat, Json>, k: nat, n: nat)
    requires k <= n <= |def.ops|
    ensures Interpret(def, id, input, results, outcomes, n)[..k] == Interpret(def, id, input, results, outcomes, k)
  {
    if k == n {
    } else {
      InterpretPrefix(def, id, input, results, outcomes, k, n - 1);
      assert Interpret(def, id, input, results, outcomes, n)[..n - 1] == Interpret(def, id, input, results, outcomes, n - 1);
    }
  }

  /** With everything below it filled in from the interpretation, a step sees what it would see there. */
  lemma StepIsInterpreted(def: Definition, id: RunId, input: Json, results: (nat, StepContext) -> Json, outcomes: map<nat, Json>,
                          values: seq<Option<Json>>, p: nat, v: Json)
    requires p < |def.ops| == |values| && def.ops[p].Step? && Deterministic(def, results)
    requires Agrees(values, Interpret(def, id, input, results, outcomes, |def.ops|)) && Filled(def, values, p)
    requires def.ops[p].may(ContextFrom(def, id, input, values, p), v)
    ensures Interpret(def, id, input, results, outcomes, |def.ops|)[p] == Some(v)
  {
    var full := Interpret(def, id, input, results, outcomes, |def.ops|);
    InterpretPrefix(def, id, input, results, outcomes, p, |def.ops|);
    InterpretPrefix(def, id, input, results, outcomes, p + 1, |def.ops|);
    SleepsLeaveNothing(def, id, input, results, outcomes);
    var before := Interpret(def, id, input, results, outcomes, p);
    assert values[..p] == before by {
      forall i | 0 <= i < p ensures values[i] == full[i] {
      }
    }
    assert ContextFrom(def, id, input, values, p) == ContextFrom(def, id, input, before, p);
    assert full[p] == Interpret(def, id, input, results, outcomes, p + 1)[p];
  }

  lemma SleepsLeaveNothing(def: Definition, id: RunId, input: Json, results: (nat, StepContext) -> Json, outcomes: map<nat, Json>)
    ensures forall i :: 0 <= i < |def.ops| && def.ops[i].Sleep? ==> Interpret(def, id, input, results, outcomes, |def.ops|)[i].None?
  {
    forall i | 0 <= i < |def.ops| && def.ops[i].Sleep?
      ensures Interpret(def, id, input, results, outcomes, |def.ops|)[i].None?
    {
      InterpretPrefix(def, id, input, results, outcomes, i + 1, |def.ops|);
      assert Interpret(def, id, input, results, outcomes, i + 1)[i].None?;
      assert Interpret(def, id, input, results, outcomes, |def.ops|)[..i + 1][i].None?;
    }
  }

  /** What one stored value keeps true of the loop's values. */
  lemma StoredAgrees(env: Env, def: Definition, full: seq<Option<Json>>, values: seq<Option<Json>>, p: nat, v: Json)
    requires OnCourse(env, def, full, values, p) && p < |values| && Records(def.ops[p]) && full[p] == Some(v)
    ensures OnCourse(env, def, full, values[p := Some(v)], p + 1)
  {
    hide Trusted;
  }

  /** A skipped position was a recording one. */
  lemma SkippedAgrees(env: Env, def: Definition, id: RunId, input: Json, results: (nat, StepContext) -> Json, outcomes: map<nat, Json>,
                      values: seq<Option<Json>>, p: nat)
    requires p < |values| && values[p].Some?
    requires OnCourse(env, def, Interpret(def, id, input, results, outcomes, |def.ops|), values, p)
    ensures OnCourse(env, def, Interpret(def, id, input, results, outcomes, |def.ops|), values, p + 1)
  {
    hide Trusted, Interpret;
    SleepsLeaveNothing(def, id, input, results, outcomes);
  }

  /** What a completed loop reads as its output. */
  lemma OutputAgrees(def: Definition, values: seq<Option<Json>>, full: seq<Option<Json>>)
    requires WellFormed(def) && Agrees(values, full) && Filled(def, values, |def.ops|)
    ensures (if def.outputIndex >= 0 then values[def.outputIndex] else None) == InterpretedOutput(def, full)
  {
  }

  /** What a turn sends fits its position. */
  ghost predicate TurnOk(def: Definition, a: ClaimedRun, p: nat, r: Turn, more: seq<Sent>)
    requires p < |def.ops|
  {
    && |more| <= 1 && (more != [] ==> FitsPosition(def, a, more[0]) && Position(more[0]) == p)
    && (!r.Broke? ==> more != [])
    && (r.Stored? ==> more[0].Commits? && more[0].complete == (p + 1 == |def.ops|) && Records(def.ops[p]))
  }

  lemma StepSaidOk(env: Env, def: Definition, a: ClaimedRun, sc: StepContext, p: nat, r: Turn, more: seq<Sent>)
    requires p < |def.ops| == |a.values| && def.ops[p].Step? && StepSaid(env, def, sc, p, r, more) && a.index <= p && a.values[p].None?
    ensures TurnOk(def, a, p, r, more)
  {
  }

  lemma WaitSaidOk(env: Env, def: Definition, a: ClaimedRun, key: string, p: nat, r: Turn, more: seq<Sent>)
    requires p < |def.ops| == |a.values| && def.ops[p].Wait? && WaitSaid(env, def, key, def.ops[p].timeout, p, r, more) && key != ""
    requires a.index <= p && a.values[p].None?
    ensures TurnOk(def, a, p, r, more)
  {
  }

  lemma SaidOk(env: Env, def: Definition, a: ClaimedRun, id: RunId, input: Json, values: seq<Option<Json>>, p: nat, r: Turn, more: seq<Sent>)
    requires p < |def.ops| == |values| == |a.values| && Said(env, def, id, input, values, p, r, more)
    requires a.index <= p && a.values[p].None?
    ensures TurnOk(def, a, p, r, more)
  {
    hide StepSaid, WaitSaid, Resolve;
    match def.ops[p] {
      case Step(_, _) => StepSaidOk(env, def, a, ContextFrom(def, id, input, values, p), p, r, more);
      case Sleep(_) =>
      case Wait(_, _, _) =>
        var key := Resolve(def.ops[p], ContextFrom(def, id, input, values, p));
        if key.Some? {
          WaitSaidOk(env, def, a, key.value, p, r, more);
        }
    }
  }

  /** On course, a turn sends and stores what the interpretation computes. */
  lemma SaidOnCourse(env: Env, def: Definition, id: RunId, input: Json, results: (nat, StepContext) -> Json, outcomes: map<nat, Json>,
                     values: seq<Option<Json>>, p: nat, r: Turn, more: seq<Sent>)
    requires WellFormed(def) && p < |def.ops| == |values| && Plays(env, def) && Deterministic(def, results)
    requires OnCourse(env, def, Interpret(def, id, input, results, outcomes, |def.ops|), values, p)
    requires Said(env, def, id, input, values, p, r, more)
    ensures var full := Interpret(def, id, input, results, outcomes, |def.ops|);
            CanonicalAll(def, full, more) && (r.Stored? ==> full[p] == Some(r.value))
  {
    hide Interpret, WellFormed, Deterministic, Plays, Trusted, StepSaid, WaitSaid, Resolve;
    var full := Interpret(def, id, input, results, outcomes, |def.ops|);
    match def.ops[p] {
      case Step(_, _) =>
        StepOnCourse(env, def, id, input, results, outcomes, values, p, r, more);
      case Sleep(_) =>
      case Wait(_, _, timeout) =>
        var key := Resolve(def.ops[p], ContextFrom(def, id, input, values, p));
        if key.Some? {
          WaitOnCourse(env, def, full, p, key.value, timeout, r, more);
        }
    }
  }

  lemma StepOnCourse(env: Env, def: Definition, id: RunId, input: Json, results: (nat, StepContext) -> Json, outcomes: map<nat, Json>,
                     values: seq<Option<Json>>, p: nat, r: Turn, more: seq<Sent>)
    requires WellFormed(def) && p < |def.ops| == |values| && def.ops[p].Step? && Plays(env, def) && Deterministic(def, results)
    requires OnCourse(env, def, Interpret(def, id, input, results, outcomes, |def.ops|), values, p)
    requires StepSaid(env, def, ContextFrom(def, id, input, values, p), p, r, more)
    ensures var full := Interpret(def, id, input, results, outcomes, |def.ops|);
            CanonicalAll(def, full, more) && (r.Stored? ==> full[p] == Some(r.value))
  {
    hide Interpret, WellFormed, Deterministic;
    var ran := env.ran(p, ContextFrom(def, id, input, values, p));
    if ran.Returned? {
      StepIsInterpreted(def, id, input, results, outcomes, values, p, ran.value);
    }
  }

  lemma WaitOnCourse(env: Env, def: Definition, full: seq<Option<Json>>, p: nat, key: string, timeout: nat, r: Turn, more: seq<Sent>)
    requires WellFormed(def) && p < |def.ops| == |full| && def.ops[p].Wait? && Trusted(env, def, full)
    requires WaitSaid(env, def, key, timeout, p, r, more)
    ensures CanonicalAll(def, full, more) && (r.Stored? ==> full[p] == Some(r.value))
  {
    hide WellFormed;
  }

  /** What a turn adds to the statements and to the values. */
  lemma TurnTaken(env: Env, def: Definition, start: ClaimedRun, results: (nat, StepContext) -> Json, outcomes: map<nat, Json>,
                  values: seq<Option<Json>>, p: nat, r: Turn, more: seq<Sent>, sent: seq<Sent>, trusted: bool)
    requires WellFormed(def) && Plays(env, def) && p < |def.ops| == |values| == |start.values| && start.index <= p && start.values[p].None?
    requires Said(env, def, start.run, start.input, values, p, r, more) && OnlyCommits(def, start, sent, p) && Covers(start, sent, p)
    requires trusted ==> Deterministic(def, results)
    requires trusted ==> OnCourse(env, def, Interpret(def, start.run, start.input, results, outcomes, |def.ops|), values, p)
    requires trusted ==> CanonicalAll(def, Interpret(def, start.run, start.input, results, outcomes, |def.ops|), sent)
    ensures Orderly(def, start, sent + more) && Covers(start, sent + more, p)
    ensures !r.Broke? ==> more != [] && |sent + more| > 0 && Position((sent + more)[|sent + more| - 1]) == p
    ensures r.Stored? ==> OnlyCommits(def, start, sent + more, p + 1) && Covers(start, sent + more, p + 1)
    ensures r.Stored? && p + 1 == |def.ops| ==> Completes(def, start, (sent + more)[|sent + more| - 1])
    ensures trusted ==> CanonicalAll(def, Interpret(def, start.run, start.input, results, outcomes, |def.ops|), sent + more)
    ensures trusted && r.Stored? ==>
              OnCourse(env, def, Interpret(def, start.run, start.input, results, outcomes, |def.ops|), values[p := Some(r.value)], p + 1)
  {
    hide Interpret, WellFormed, OnCourse, Deterministic, Plays, Canonical, FitsPosition, Said, SentAt, Orderly;
    SaidOk(env, def, start, start.run, start.input, values, p, r, more);
    if more != [] {
      assert more == [more[0]];
      LogGrows(def, start, sent, p, more[0]);
    } else {
      assert sent + more == sent;
    }
    if trusted {
      SaidOnCourse(env, def, start.run, start.input, results, outcomes, values, p, r, more);
      if r.Stored? {
        StoredAgrees(env, def, Interpret(def, start.run, start.input, results, outcomes, |def.ops|), values, p, r.value);
      }
    }
  }

  /** A skipped position needs no statement. */
  lemma SkipCovers(def: Definition, start: ClaimedRun, sent: seq<Sent>, p: nat)
    requires OnlyCommits(def, start, sent, p) && Covers(start, sent, p) && p < |start.values| && start.values[p].Some?
    ensures OnlyCommits(def, start, sent, p + 1) && Covers(start, sent, p + 1)
  {
  }

  lemma SetsOut(env: Env, def: Definition, start: ClaimedRun, results: (nat, StepContext) -> Json, outcomes: map<nat, Json>)
    requires WellFormed(def) && Drives(def, start)
    ensures OnlyCommits(def, start, [], start.index) && Covers(start, [], start.index) && -1 <= def.outputIndex < |def.ops|
    ensures Replays(env, def, start, results, outcomes) ==>
              var full := Interpret(def, start.run, start.input, results, outcomes, |def.ops|);
              Deterministic(def, results) && OnCourse(env, def, full, start.values, start.index) && CanonicalAll(def, full, [])
  {
    hide Interpret, OnCourse, Deterministic;
  }

  lemma Finishing(env: Env, def: Definition, start: ClaimedRun, full: seq<Option<Json>>, values: seq<Option<Json>>, sent: seq<Sent>,
                  output: Option<Json>, trusted: bool)
    requires WellFormed(def) && |values| == |start.values| == |full| == |def.ops| && start.index <= |def.ops|
    requires OnlyCommits(def, start, sent, |def.ops|) && Covers(start, sent, |def.ops|)
    requires output == if def.outputIndex >= 0 then values[def.outputIndex] else None
    requires trusted ==> OnCourse(env, def, full, values, |def.ops|) && CanonicalAll(def, full, sent)
    ensures var all := sent + [Finishes(|def.ops|, output)];
            Orderly(def, start, all) && Covers(start, all, |def.ops|) && (trusted ==> CanonicalAll(def, full, all))
  {
    hide OnlyCommits, Trusted, WellFormed, Orderly, SentAt;
    LogGrows(def, start, sent, |def.ops|, Finishes(|def.ops|, output));
    if trusted {
      OutputAgrees(def, values, full);
    }
  }

  /** The loop ran past the last operation: completeRun with the value at the output position. */
  method Complete(env: Env, def: Definition, ghost a: ClaimedRun, ghost sent: seq<Sent>, ghost c: ClaimedRun, output: Option<Json>)
    returns (end: End, ghost after: ClaimedRun)
    requires Reaches(env, def, a, sent, c) && Drives(def, c) && c.index == |def.ops| && -1 <= def.outputIndex < |def.ops|
    requires output == if def.outputIndex >= 0 then c.values[def.outputIndex] else None
    ensures Ends(env, def, a, sent + [Finishes(|def.ops|, output)], end, after) && after.index == c.index
    ensures if end.Errored? then after.phase == Failing(end.error) else after.phase.Done?
    ensures match env.finished(output)
            case Rows(n) => end == if n > 0 then Ended else LostLease
            case ExecBroke(error) => end == Errored(error)
  {
    hide Reaches, Ends;
    after := Begins(env, def, a, sent, c);
    var r;
    r, after := Close(env, env.finished(output), def, a, sent + [Finishes(|def.ops|, output)], after);
    end := EndFor(r);
  }

  /* ---- the loop ---- */

  /** What is being replayed, if anything: a deterministic definition and the outcomes of its waits. */
  datatype Replay = Replay(results: (nat, StepContext) -> Json, outcomes: map<nat, Json>)

  ghost function Full(def: Definition, start: ClaimedRun, replay: Replay): (full: seq<Option<Json>>)
    ensures |full| == |def.ops|
  {
    Interpret(def, start.run, start.input, replay.results, replay.outcomes, |def.ops|)
  }

  /** The loop stands at `index` with these values, having sent `sent`. */
  ghost predicate Driven(env: Env, def: Definition, start: ClaimedRun, replay: Replay, values: seq<Option<Json>>, index: nat, sent: seq<Sent>,
                         c: ClaimedRun)
    requires WellFormed(def)
  {
    && start.index <= index <= |def.ops| == |values| == |start.values|
    && Reaches(env, def, start, sent, c) && Drives(def, c) && c.values == values && c.index == index && c.run == start.run && c.input == start.input
    && (forall i :: index <= i < |def.ops| ==> values[i] == start.values[i])
    && OnlyCommits(def, start, sent, index) && Covers(start, sent, index)
    && (start.index < index == |def.ops| ==> start.values[index - 1].Some?)
    && (Replays(env, def, start, replay.results, replay.outcomes) ==>
          OnCourse(env, def, Full(def, start, replay), values, index) && CanonicalAll(def, Full(def, start, replay), sent))
  }

  /** Everything drive promises. It ends as the claim automaton does on the world's answers. Positions rise, none that
      had no value is passed over, and the last statement is for the position where it ended. Undisturbed it completes
      the run. Replaying a deterministic definition it sends what the straight-line interpretation computes. */
  ghost predicate Drove(env: Env, def: Definition, start: ClaimedRun, replay: Replay, end: End, sent: seq<Sent>, after: ClaimedRun)
    requires WellFormed(def)
  {
    && Ends(env, def, start, sent, end, after)
    && (if end.Errored? then after.phase == Failing(end.error) else after.phase.Done?)
    && Orderly(def, start, sent) && Covers(start, sent, after.index)
    && (end.Ended? || end.LostLease? ==> sent != [] && Position(sent[|sent| - 1]) == after.index)
    && (end.Stopped? ==> after.index < |def.ops| && env.stopped(after.index))
    && (Undisturbed(env, def, start) ==> end.Ended? && Completes(def, start, sent[|sent| - 1]))
    && (Replays(env, def, start, replay.results, replay.outcomes) ==> CanonicalAll(def, Full(def, start, replay), sent))
  }

  ghost predicate DroveTo(env: Env, def: Definition, start: ClaimedRun, replay: Replay, end: End, sent: seq<Sent>)
    requires WellFormed(def)
  {
    exists after :: Drove(env, def, start, replay, end, sent, after)
  }

  /** What drive promises leaves it one result and one sequence of statements. */
  lemma DriveIsDetermined(env: Env, def: Definition, start: ClaimedRun, replay: Replay, end1: End, sent1: seq<Sent>, end2: End, sent2: seq<Sent>)
    requires WellFormed(def) && DroveTo(env, def, start, replay, end1, sent1) && DroveTo(env, def, start, replay, end2, sent2)
    ensures end1 == end2 && sent1 == sent2
  {
    hide Ends, WellFormed, Orderly, Covers, Undisturbed, Replays, CanonicalAll;
    var a :| Drove(env, def, start, replay, end1, sent1, a);
    var b :| Drove(env, def, start, replay, end2, sent2, b);
    LoopIsDetermined(env, def, start, sent1, end1, a, sent2, end2, b);
  }

  lemma StartsOut(env: Env, def: Definition, start: ClaimedRun, replay: Replay)
    requires WellFormed(def) && Drives(def, start)
    ensures Driven(env, def, start, replay, start.values, start.index, [], start) && -1 <= def.outputIndex < |def.ops|
  {
    SetsOut(env, def, start, replay.results, replay.outcomes);
    ReachesItself(env, def, start);
    hide WellFormed, OnlyCommits, Covers, Reaches, Replays, OnCourse, CanonicalAll, Interpret;
  }

  lemma StopsHere(env: Env, def: Definition, start: ClaimedRun, replay: Replay, values: seq<Option<Json>>, index: nat, sent: seq<Sent>, c: ClaimedRun)
    returns (after: ClaimedRun)
    requires WellFormed(def) && index < |def.ops| && env.stopped(index) && Driven(env, def, start, replay, values, index, sent, c)
    ensures Drove(env, def, start, replay, Stopped, sent, after)
  {
    hide WellFormed, Orderly, Covers, Reaches, Ends, Replays, OnCourse, CanonicalAll, Full;
    after := Stops(env, def, start, sent, c);
  }

  lemma SkipsHere(env: Env, def: Definition, start: ClaimedRun, replay: Replay, values: seq<Option<Json>>, index: nat, sent: seq<Sent>, c: ClaimedRun)
    returns (after: ClaimedRun)
    requires WellFormed(def) && index < |def.ops| == |values| && !env.stopped(index) && values[index].Some?
    requires Driven(env, def, start, replay, values, index, sent, c)
    ensures Driven(env, def, start, replay, values, index + 1, sent, after)
  {
    hide WellFormed, OnlyCommits, Covers, Reaches, Ends, Replays, OnCourse, CanonicalAll, Interpret;
    after := Skips(env, def, start, sent, c);
    SkipCovers(def, start, sent, index);
    if Replays(env, def, start, replay.results, replay.outcomes) {
      SkippedAgrees(env, def, start.run, start.input, replay.results, replay.outcomes, values, index);
    }
  }

  lemma ReplaysDeterministic(env: Env, def: Definition, start: ClaimedRun, replay: Replay)
    ensures Replays(env, def, start, replay.results, replay.outcomes) ==> Deterministic(def, replay.results)
  {
    hide Deterministic, OnCourse, Interpret;
  }

  lemma SmoothTurn(env: Env, def: Definition, start: ClaimedRun, values: seq<Option<Json>>, p: nat, r: Turn, more: seq<Sent>)
    requires start.index <= p < |def.ops| == |values| == |start.values| && start.values[p].None?
    requires Said(env, def, start.run, start.input, values, p, r, more)
    ensures Undisturbed(env, def, start) ==> r.Stored?
  {
    hide Said, Smooth;
    if Undisturbed(env, def, start) {
      SmoothStores(env, def, start.run, start.input, values, p, r, more);
    }
  }

  /** A value stored before the last position leaves the loop at the next one. */
  lemma TurnStored(env: Env, def: Definition, start: ClaimedRun, replay: Replay, values: seq<Option<Json>>, index: nat, sent: seq<Sent>,
                   c: ClaimedRun, r: Turn, more: seq<Sent>, after: ClaimedRun)
    requires WellFormed(def) && Plays(env, def) && index < |def.ops| == |values| && values[index].None?
    requires Driven(env, def, start, replay, values, index, sent, c)
    requires Said(env, def, start.run, start.input, values, index, r, more)
    requires Goes(env, def, start, sent + more, r, index + 1 == |def.ops|, after) && Leaves(c, index + 1 == |def.ops|, r, after)
    requires r.Stored? && index + 1 < |def.ops|
    ensures Driven(env, def, start, replay, values[index := Some(r.value)], index + 1, sent + more, after)
  {
    hide WellFormed, Plays, OnlyCommits, Orderly, Covers, Reaches, Ends, Replays, OnCourse, CanonicalAll, Interpret, Said, Completes, Deterministic, Position;
    ReplaysDeterministic(env, def, start, replay);
    TurnTaken(env, def, start, replay.results, replay.outcomes, values, index, r, more, sent,
              Replays(env, def, start, replay.results, replay.outcomes));
  }

  /** Any other turn ends the loop. */
  lemma TurnEnded(env: Env, def: Definition, start: ClaimedRun, replay: Replay, values: seq<Option<Json>>, index: nat, sent: seq<Sent>,
                  c: ClaimedRun, r: Turn, more: seq<Sent>, after: ClaimedRun)
    requires WellFormed(def) && Plays(env, def) && index < |def.ops| == |values| && values[index].None?
    requires Driven(env, def, start, replay, values, index, sent, c)
    requires Said(env, def, start.run, start.input, values, index, r, more)
    requires Goes(env, def, start, sent + more, r, index + 1 == |def.ops|, after) && Leaves(c, index + 1 == |def.ops|, r, after)
    requires r.Stored? ==> index + 1 == |def.ops|
    ensures Drove(env, def, start, replay, EndFor(r), sent + more, after)
  {
    hide WellFormed, Plays, OnlyCommits, Orderly, Covers, Reaches, Ends, Replays, OnCourse, CanonicalAll, Interpret, Said, Undisturbed, Completes,
      Deterministic, Position;
    ReplaysDeterministic(env, def, start, replay);
    TurnTaken(env, def, start, replay.results, replay.outcomes, values, index, r, more, sent,
              Replays(env, def, start, replay.results, replay.outcomes));
    SmoothTurn(env, def, start, values, index, r, more);
  }

  lemma FinishDone(env: Env, def: Definition, start: ClaimedRun, replay: Replay, values: seq<Option<Json>>, sent: seq<Sent>, c: ClaimedRun,
                   output: Option<Json>, end: End, after: ClaimedRun)
    requires WellFormed(def) && Driven(env, def, start, replay, values, |def.ops|, sent, c)
    requires -1 <= def.outputIndex < |def.ops| && output == if def.outputIndex >= 0 then values[def.outputIndex] else None
    requires Ends(env, def, start, sent + [Finishes(|def.ops|, output)], end, after) && after.index == |def.ops| && !end.Stopped?
    requires if end.Errored? then after.phase == Failing(end.error) else after.phase.Done?
    requires Undisturbed(env, def, start) ==> end.Ended?
    ensures Drove(env, def, start, replay, end, sent + [Finishes(|def.ops|, output)], after)
  {
    hide WellFormed, OnlyCommits, Orderly, Covers, Reaches, Ends, Replays, OnCourse, CanonicalAll, Undisturbed, Interpret;
    Finishing(env, def, start, Full(def, start, replay), values, sent, output, Replays(env, def, start, replay.results, replay.outcomes));
  }

  /** drive: skips what is stored, executes what is due, and stops at the first park, loss or error. */
  method Drive(env: Env, def: Definition, start: ClaimedRun, ghost replay: Replay) returns (end: End, sent: seq<Sent>)
    requires WellFormed(def) && Plays(env, def) && Drives(def, start)
    ensures DroveTo(env, def, start, replay, end, sent)
  {
    var values := new Option<Json>[|def.ops|](i requires 0 <= i < |def.ops| => start.values[i]);
    assert values[..] == start.values;
    StartsOut(env, def, start, replay);
    hide WellFormed, Plays, Reaches, OnlyCommits, Covers, Replays, OnCourse, CanonicalAll, Full, Drove, Said, Goes, Leaves;
    ghost var after := start;
    sent := [];
    var index := start.index;
    while index < |def.ops|
      invariant 0 <= index <= |def.ops| == values.Length
      invariant Driven(env, def, start, replay, values[..], index, sent, after)
    {
      if env.stopped(index) {
        end := Stopped;
        after := StopsHere(env, def, start, replay, values[..], index, sent, after);
        return;
      }
      if values[index].Some? {
        after := SkipsHere(env, def, start, replay, values[..], index, sent, after);
        index := index + 1;
        continue;
      }
      var r, more;
      ghost var before, was := after, values[..];
      r, more, after := TakeTurn(env, def, start, sent, before, start.run, start.input, values[..], index);
      if !r.Stored? {
        TurnEnded(env, def, start, replay, was, index, sent, before, r, more, after);
        end, sent := EndFor(r), sent + more;
        return;
      }
      values[index] := Some(r.value);
      if index + 1 == |def.ops| {
        TurnEnded(env, def, start, replay, was, index, sent, before, r, more, after);
        end, sent := Ended, sent + more;
        return;
      }
      TurnStored(env, def, start, replay, was, index, sent, before, r, more, after);
      assert values[..] == was[index := Some(r.value)];
      sent, index := sent + more, index + 1;
    }
    var output := if def.outputIndex >= 0 then values[def.outputIndex] else None;
    ghost var last := after;
    end, after := Complete(env, def, start, sent, last, output);
    FinishDone(env, def, start, replay, values[..], sent, last, output, end, after);
    sent := sent + [Finishes(|def.ops|, output)];
  }

  /** executeClaim: an error is recorded as a failed attempt unless the lease is gone or the claim was cancelled;
      a workflow that is not registered here is left to whoever has it. */
  method ExecuteClaim(env: Env, registered: map<WorkflowKey, Definition>, workflow: WorkflowKey, start: ClaimedRun, cancelled: bool,
                      ghost replay: Replay)
    returns (sent: seq<Sent>, failure: Option<string>)
    requires workflow in registered ==> WellFormed(registered[workflow]) && Plays(env, registered[workflow]) && Drives(registered[workflow], start)
    ensures workflow !in registered ==> sent == [] && failure.None?
    ensures workflow in registered ==> exists end ::
              DroveTo(env, registered[workflow], start, replay, end, sent) && failure == if end.Errored? && !cancelled then Some(end.error) else None
  {
    hide DroveTo;
    sent, failure := [], None;
    if workflow in registered {
      var end;
      end, sent := Drive(env, registered[workflow], start, replay);
      if end.Errored? && !cancelled {
        failure := Some(end.error);
      }
    }
  }
}
