/** No run is ever stuck: from every reachable state there are continuations, without anyone cancelling it, that end it. */
module Settling {
  import opened Basics
  import opened Workflow
  import opened Rows
  import opened Tables
  import opened RunInvariant
  import opened Worker
  import opened ClaimInvariant
  import opened Protocol
  import opened CoreInvariant
  import opened LeaseInvariant
  import opened EventInvariant
  import opened EventSteps
  import opened SystemInvariant

  /* ---- continuations ---- */

  /** Steps from `a` to `b`, none of them a cancellation. */
  ghost predicate IsContinuation(w: World, states: seq<Sys>, labels: seq<Label>, a: Sys, b: Sys) {
    && |states| == |labels| + 1 && states[0] == a && states[|labels|] == b
    && forall i :: 0 <= i < |labels| ==>
         !labels[i].CancelRun? && Enabled(w, states[i], labels[i]) && states[i + 1] == Apply(w, states[i], labels[i])
  }

  ghost predicate Leads(w: World, a: Sys, b: Sys) {
    exists states, labels :: IsContinuation(w, states, labels, a, b)
  }

  /** A good state on the way. */
  ghost predicate OnWay(w: World, a: Sys, s: Sys) {
    WorldOk(w) && Leads(w, a, s) && SysOk(w, s)
  }

  lemma StartsHere(w: World, a: Sys)
    requires WorldOk(w) && SysOk(w, a)
    ensures OnWay(w, a, a)
  {
    assert IsContinuation(w, [a], [], a, a);
  }

  lemma Advance(w: World, a: Sys, s: Sys, l: Label) returns (s': Sys)
    requires OnWay(w, a, s) && Enabled(w, s, l) && !l.CancelRun?
    ensures OnWay(w, a, s') && s' == Apply(w, s, l) && RowsStep(w, s, s')
  {
    hide Enabled, Apply, SysOk, WorldOk, RowsStep;
    s' := Apply(w, s, l);
    SysStep(w, s, l);
    var states, labels :| IsContinuation(w, states, labels, a, s);
    var longer, more := states + [s'], labels + [l];
    forall i | 0 <= i < |more|
      ensures !more[i].CancelRun? && Enabled(w, longer[i], more[i]) && longer[i + 1] == Apply(w, longer[i], more[i])
    {
      if i < |labels| {
        assert more[i] == labels[i];
      }
    }
    assert IsContinuation(w, longer, more, a, s');
  }

  /* ---- single steps, by what they do to one row ---- */

  lemma LetsTimePass(w: World, a: Sys, s: Sys, to: Time) returns (s': Sys)
    requires OnWay(w, a, s)
    ensures OnWay(w, a, s') && s' == s.(clock := if s.clock <= to then to else s.clock)
  {
    hide OnWay;
    s' := Advance(w, a, s, Tick(if s.clock <= to then to else s.clock));
  }

  lemma {:induction false} Above(ts: set<nat>) returns (n: nat)
    ensures forall t :: t in ts ==> t < n
  {
    if ts == {} {
      n := 0;
    } else {
      var t :| t in ts;
      var below := Above(ts - {t});
      n := if t < below then below else t + 1;
      assert forall u :: u in ts ==> u == t || u in ts - {t};
    }
  }

  /** The definition of a run on the way. */
  lemma HasDefinition(w: World, a: Sys, s: Sys, r: RunId)
    requires OnWay(w, a, s) && r in s.runs
    ensures s.runs[r].workflow in w.defs && RunOk(w.defs[s.runs[r].workflow], r, s.runs[r]) && WellFormed(w.defs[s.runs[r].workflow])
  {
    hide Leads, RunOk, WellFormed, LeaseOk, EventsOk, DedupOk, ClaimAt, TokenAt;
    assert RowOk(w, r, s.runs[r]);
  }

  /** A ready run is claimed under an unused token, at once. */
  lemma TakesUp(w: World, a: Sys, s: Sys, r: RunId) returns (s': Sys, t: Token)
    requires OnWay(w, a, s) && r in s.runs && s.runs[r].state.Ready?
    ensures OnWay(w, a, s') && r in s'.runs && s.runs[r].workflow in w.defs
    ensures s'.runs[r] == Claim(s.runs[r], t, s'.clock, w.ttl)
    ensures t in s'.claims && s'.claims[t] == Start(w.defs[s.runs[r].workflow], r, s'.runs[r], s'.clock, w.ttl)
  {
    hide OnWay, Start, RowsStep;
    HasDefinition(w, a, s, r);
    hide RunOk, WellFormed;
    s' := LetsTimePass(w, a, s, s.runs[r].nextRunAt);
    t := Above(s'.claims.Keys);
    s' := Advance(w, a, s', ClaimRun(r, t, s'.clock, s'.clock, s'.runs[r].queue));
  }

  /** A lease nobody renews runs out and is recovered. */
  lemma Recovers(w: World, a: Sys, s: Sys, r: RunId) returns (s': Sys)
    requires OnWay(w, a, s) && r in s.runs && s.runs[r].state.Leased?
    ensures OnWay(w, a, s') && r in s'.runs && s'.runs[r] == Recover(s.runs[r], s'.clock)
  {
    hide OnWay, Recover, RowsStep;
    HasDefinition(w, a, s, r);
    s' := LetsTimePass(w, a, s, s.runs[r].leaseUntil.value + 1);
    s' := Advance(w, a, s', RecoverLeases({r}, s'.clock));
  }

  /** A wait nobody answers reaches its deadline and times out. */
  lemma TimesOut(w: World, a: Sys, s: Sys, r: RunId) returns (s': Sys)
    requires OnWay(w, a, s) && r in s.runs && s.runs[r].state.Waiting?
    ensures OnWay(w, a, s') && r in s'.runs && s'.runs[r] == TimeOut(s.runs[r], s'.clock)
  {
    hide OnWay, TimeOut, RowsStep;
    HasDefinition(w, a, s, r);
    s' := LetsTimePass(w, a, s, s.runs[r].waitDeadline.value);
    s' := Advance(w, a, s', PromoteTimedOut({r}, s'.clock, s'.clock));
  }

  /* ---- every unfinished run can be ended by the passing of time alone ---- */

  function Patience(run: Run): nat {
    if run.leaseFailures < run.maxAttempts then run.maxAttempts - run.leaseFailures else 0
  }

  function Rounds(state: RunState): nat {
    match state
    case Waiting => 2
    case Ready => 1
    case _ => 0
  }

  lemma {:induction false} WearsOut(w: World, a: Sys, s: Sys, r: RunId) returns (s': Sys)
    requires OnWay(w, a, s) && r in s.runs
    ensures OnWay(w, a, s') && r in s'.runs && s'.runs[r].state.Terminal()
    decreases Patience(s.runs[r]), Rounds(s.runs[r].state)
  {
    hide OnWay;
    HasDefinition(w, a, s, r);
    hide RunOk, WellFormed;
    match s.runs[r].state {
      case Waiting =>
        s' := TimesOut(w, a, s, r);
        s' := WearsOut(w, a, s', r);
      case Ready =>
        var t;
        s', t := TakesUp(w, a, s, r);
        s' := WearsOut(w, a, s', r);
      case Leased =>
        LeaseFailuresBelow(w.defs[s.runs[r].workflow], r, s.runs[r]);
        s' := Recovers(w, a, s, r);
        s' := WearsOut(w, a, s', r);
      case _ =>
        s' := s;
    }
  }

  lemma LeaseFailuresBelow(def: Definition, r: RunId, run: Run)
    requires RunOk(def, r, run) && !run.state.Failed?
    ensures run.leaseFailures < run.maxAttempts
  {
    hide ProgressOk, OutputOk, Justified;
  }

  /** In every reachable state, each unfinished run has a continuation without a cancellation that ends it. */
  lemma NeverStuck(w: World, states: seq<Sys>, labels: seq<Label>, i: nat, r: RunId) returns (s': Sys)
    requires WorldOk(w) && IsTrace(w, states, labels) && i <= |labels| && r in states[i].runs
    ensures Leads(w, states[i], s') && r in s'.runs && s'.runs[r].state.Terminal()
  {
    hide Enabled, Apply;
    assert |states| == |labels| + 1;
    hide IsTrace, WorldOk, SysOk;
    Reachable(w, states, labels, i);
    StartsHere(w, states[i]);
    s' := WearsOut(w, states[i], states[i], r);
  }

  /* ---- and completed, when its user code can return ---- */

  /** Every step can return something in every context, and every key resolves. */
  ghost predicate Able(def: Definition) {
    && (forall p, sc :: 0 <= p < |def.ops| && def.ops[p].Step? ==> CanReturnFrom(def.ops[p], sc))
    && (forall p, sc :: 0 <= p < |def.ops| && def.ops[p].Wait? ==> Resolve(def.ops[p], sc).Some?)
  }

  ghost predicate CanReturnFrom(op: Op, sc: StepContext)
    requires op.Step?
  {
    exists v :: op.may(sc, v)
  }

  /** The claim drives the run under an unexpired lease. */
  ghost predicate AtWork(w: World, s: Sys, r: RunId, t: Token) {
    && r in s.runs && t in s.claims && s.claims[t].run == r && s.claims[t].phase.Driving?
    && Fence(s.runs[r], t, s.clock) && s.runs[r].workflow in w.defs
  }

  /** What the invariant says of a claim at work. */
  lemma AtWorkFacts(w: World, a: Sys, s: Sys, r: RunId, t: Token)
    requires OnWay(w, a, s) && AtWork(w, s, r, t)
    ensures var c := s.claims[t];
            var def := w.defs[s.runs[r].workflow];
            && Idle(c) && |c.values| == |def.ops| && s.runs[r].cursor <= c.index <= |def.ops|
            && (c.index < |def.ops| ==> (c.values[c.index].Some? <==> c.index in s.runs[r].checkpoints))
  {
    hide Leads, WorldOk, LeaseOk, EventsOk, DedupOk, RowOk, TokenAt, StatementOk, TxOk;
    assert ClaimAt(w, s.runs, t, s.claims[t]);
  }

  lemma LocalMove(w: World, a: Sys, s: Sys, t: Token, m: Move) returns (s': Sys)
    requires OnWay(w, a, s) && HasDef(w, s, t) && CanMove(DefFor(w, s, t), s.claims[t], m)
    ensures OnWay(w, a, s') && s' == WithClaim(s, t, Moved(DefFor(w, s, t), s.claims[t], m, s.clock))
  {
    hide OnWay, CanMove, Moved, RowsStep;
    s' := Advance(w, a, s, Local(t, m));
  }

  lemma ServerMove(w: World, a: Sys, s: Sys, t: Token, x: Exec) returns (s': Sys)
    requires OnWay(w, a, s) && t in s.claims && s.claims[t].run in s.runs && CanExecute(s.claims[t], x, s.clock)
    ensures OnWay(w, a, s') && s' == DoServer(s, t, x)
  {
    hide OnWay, CanExecute, DoServer, RowsStep;
    s' := Advance(w, a, s, Server(t, x));
  }

  lemma WaitMove(w: World, a: Sys, s: Sys, t: Token, m: TxMove) returns (s': Sys)
    requires OnWay(w, a, s) && t in s.claims && CanTxMove(w, s, t, m)
    ensures OnWay(w, a, s') && s' == DoTxMove(w, s, t, m)
  {
    hide OnWay, CanTxMove, DoTxMove, RowsStep;
    s' := Advance(w, a, s, Label.Waiting(t, m));
  }

  /** Distance to the end: positions left, and whether the one at hand is settled and claimed. */
  function Distance(n: nat, position: nat, settled: bool, atWork: bool): int {
    4 * (n - position) + (if settled then 0 else 2) + (if atWork then 0 else 1)
  }

  function WorkDistance(def: Definition, c: ClaimedRun): int {
    Distance(|def.ops|, c.index, c.index < |c.values| && c.values[c.index].Some?, true)
  }

  function ReadyDistance(def: Definition, run: Run): int {
    Distance(|def.ops|, run.cursor, run.cursor in run.checkpoints, false)
  }

  /** Where a pass of the loop leaves the run: completed, or still at work or ready and nearer to the end. */
  ghost predicate Nearer(w: World, s: Sys, r: RunId, t: Token, def: Definition, distance: int) {
    && r in s.runs && s.runs[r].workflow in w.defs && w.defs[s.runs[r].workflow] == def
    && (|| s.runs[r].state.Completed?
        || (AtWork(w, s, r, t) && WorkDistance(def, s.claims[t]) < distance)
        || (s.runs[r].state.Ready? && ReadyDistance(def, s.runs[r]) < distance))
  }

  lemma SkipPass(w: World, a: Sys, s: Sys, r: RunId, t: Token) returns (s': Sys)
    requires OnWay(w, a, s) && AtWork(w, s, r, t) && CanSkip(s.claims[t])
    ensures OnWay(w, a, s') && Nearer(w, s', r, t, w.defs[s.runs[r].workflow], WorkDistance(w.defs[s.runs[r].workflow], s.claims[t]))
  {
    hide OnWay;
    s' := LocalMove(w, a, s, t, SkipPosition);
  }

  /** Begins the operation at the index, or the completion past the last. */
  lemma BeginPass(w: World, a: Sys, s: Sys, r: RunId, t: Token) returns (s': Sys)
    requires OnWay(w, a, s) && AtWork(w, s, r, t) && !CanSkip(s.claims[t])
    ensures var def := w.defs[s.runs[r].workflow];
            && OnWay(w, a, s') && CanBegin(def, s.claims[t]) && s' == WithClaim(s, t, Begin(def, s.claims[t])) && Idle(s.claims[t])
  {
    hide OnWay, Begin;
    AtWorkFacts(w, a, s, r, t);
    s' := LocalMove(w, a, s, t, BeginOperation);
  }

  lemma FinishPass(w: World, a: Sys, s: Sys, r: RunId, t: Token) returns (s': Sys)
    requires OnWay(w, a, s) && AtWork(w, s, r, t) && s.claims[t].index == |w.defs[s.runs[r].workflow].ops| && !CanSkip(s.claims[t])
    ensures OnWay(w, a, s') && r in s'.runs && s'.runs[r].state.Completed? && s'.runs[r].workflow == s.runs[r].workflow
  {
    hide OnWay;
    s' := BeginPass(w, a, s, r, t);
    s' := ServerMove(w, a, s', t, ExecDrive(s.clock));
  }

  lemma SleepPass(w: World, a: Sys, s: Sys, r: RunId, t: Token) returns (s': Sys)
    requires OnWay(w, a, s) && AtWork(w, s, r, t) && !CanSkip(s.claims[t])
    requires var def := w.defs[s.runs[r].workflow]; s.claims[t].index < |def.ops| && def.ops[s.claims[t].index].Sleep?
    ensures OnWay(w, a, s') && Nearer(w, s', r, t, w.defs[s.runs[r].workflow], WorkDistance(w.defs[s.runs[r].workflow], s.claims[t]))
  {
    hide OnWay;
    AtWorkFacts(w, a, s, r, t);
    s' := BeginPass(w, a, s, r, t);
    s' := ServerMove(w, a, s', t, ExecDrive(s.clock));
  }

  lemma StepPass(w: World, a: Sys, s: Sys, r: RunId, t: Token) returns (s': Sys)
    requires OnWay(w, a, s) && AtWork(w, s, r, t) && !CanSkip(s.claims[t]) && Able(w.defs[s.runs[r].workflow])
    requires var def := w.defs[s.runs[r].workflow]; s.claims[t].index < |def.ops| && def.ops[s.claims[t].index].Step?
    ensures OnWay(w, a, s') && Nearer(w, s', r, t, w.defs[s.runs[r].workflow], WorkDistance(w.defs[s.runs[r].workflow], s.claims[t]))
  {
    hide OnWay, ContextFrom, Able;
    AtWorkFacts(w, a, s, r, t);
    s' := BeginPass(w, a, s, r, t);
    var v := SomeResult(w.defs[s.runs[r].workflow], s.claims[t].index, s'.claims[t].phase.sc);
    s' := LocalMove(w, a, s', t, StepReturns(v));
    s' := ServerMove(w, a, s', t, ExecDrive(s.clock));
  }

  lemma SomeResult(def: Definition, p: nat, sc: StepContext) returns (v: Json)
    requires Able(def) && p < |def.ops| && def.ops[p].Step?
    ensures def.ops[p].may(sc, v)
  {
    assert CanReturnFrom(def.ops[p], sc);
    v :| def.ops[p].may(sc, v);
  }

  /* ---- the wait ---- */

  /** The lookup has an answer. */
  lemma {:induction false} SomeLatest(log: set<Event>, nextEvent: nat, key: string, now: Time) returns (found: Option<Event>)
    requires IdsOk(log, nextEvent)
    ensures LatestEvent(log, key, now, found)
    decreases |log|
  {
    if log == {} {
      found := None;
    } else {
      var e :| e in log;
      var rest := SomeLatest(log - {e}, nextEvent, key, now);
      LatestWith(log, nextEvent, log - {e}, e, key, now, rest);
      assert log - {e} + {e} == log;
      found := if Qualifies(e, key, now) && (rest.None? || Newer(e, rest.value)) then Some(e) else rest;
    }
  }

  /** Locks have one holder and events distinct numbers. */
  lemma EventsAreOk(w: World, a: Sys, s: Sys)
    requires OnWay(w, a, s)
    ensures LocksOk(w, s.claims, s.emits) && IdsOk(s.log, s.nextEvent)
  {
    hide Leads, WorldOk, CoreOk, LeaseOk, DedupOk, LocksOk, TxsOk, EventRows, IdsOk;
  }

  /** Everything the wait at hand depends on is the same. */
  ghost predicate SameForWait(s: Sys, s': Sys, t: Token) {
    && s'.runs == s.runs && s'.clock == s.clock && s'.log == s.log && s'.nextEvent == s.nextEvent
    && t in s.claims && t in s'.claims && s'.claims[t] == s.claims[t]
  }

  /** Whoever holds the lock can roll back, so it can be had. */
  lemma FreesLock(w: World, a: Sys, s: Sys, t: Token, lock: int) returns (s': Sys)
    requires OnWay(w, a, s) && t in s.claims && s.claims[t].tx.Some? && s.claims[t].tx.value.phase.Begun?
    ensures OnWay(w, a, s') && SameForWait(s, s', t) && LockFree(w, s', lock)
  {
    hide OnWay, RowsStep, Holds, LocksOk;
    EventsAreOk(w, a, s);
    if o :| Holds(w, s.claims, s.emits, o, lock) {
      match o {
        case Waiter(u) =>
          OtherHolder(w, s, t, u, lock);
          s' := WaitMove(w, a, s, u, WaitRollback);
          HolderGone(w, s, s', o, lock);
        case Emitter(x) =>
          EmitterHolds(w, s, x, lock);
          s' := Advance(w, a, s, Emitting(x, EmitRollback));
          HolderGone(w, s, s', o, lock);
      }
    } else {
      s' := s;
    }
  }

  lemma OtherHolder(w: World, s: Sys, t: Token, u: Token, lock: int)
    requires t in s.claims && s.claims[t].tx.Some? && s.claims[t].tx.value.phase.Begun? && Holds(w, s.claims, s.emits, Waiter(u), lock)
    ensures u in s.claims && u != t && s.claims[u].tx.Some?
  {
  }

  lemma EmitterHolds(w: World, s: Sys, x: nat, lock: int)
    requires Holds(w, s.claims, s.emits, Emitter(x), lock)
    ensures x in s.emits
  {
  }

  /** The one holder rolled back. */
  lemma HolderGone(w: World, s: Sys, s': Sys, o: Owner, lock: int)
    requires LocksOk(w, s.claims, s.emits) && Holds(w, s.claims, s.emits, o, lock)
    requires match o
             case Waiter(u) => u in s.claims && CanTxMove(w, s, u, WaitRollback) && s' == DoTxMove(w, s, u, WaitRollback)
             case Emitter(x) => x in s.emits && s' == DoEmitMove(w, s, x, EmitRollback)
    ensures LockFree(w, s', lock)
  {
    forall p ensures !Holds(w, s'.claims, s'.emits, p, lock) {
      if Holds(w, s'.claims, s'.emits, p, lock) {
        assert Holds(w, s.claims, s.emits, p, lock);
        assert false;
      }
    }
  }

  /** The wait opens its transaction, gets the lock and looks. */
  lemma LooksUp(w: World, a: Sys, s: Sys, r: RunId, t: Token) returns (s': Sys, found: Option<Event>)
    requires OnWay(w, a, s) && AtWork(w, s, r, t) && !CanSkip(s.claims[t]) && Able(w.defs[s.runs[r].workflow])
    requires var def := w.defs[s.runs[r].workflow]; s.claims[t].index < |def.ops| && def.ops[s.claims[t].index].Wait?
    ensures OnWay(w, a, s') && s'.runs == s.runs && s'.clock == s.clock && t in s'.claims
    ensures var c := s'.claims[t];
            && c == s.claims[t].(phase := InTx, tx := c.tx) && c.tx.Some? && c.tx.value.index == c.index
            && c.tx.value.complete == (c.index + 1 == |w.defs[s.runs[r].workflow].ops|)
            && (if found.Some? then c.tx.value.phase.Found? && c.tx.value.phase.event == found.value else c.tx.value.phase.Empty?)
  {
    hide OnWay, ContextFrom, Resolve, Able, LockFree, LatestEvent, LocksOk, IdsOk;
    var def := w.defs[s.runs[r].workflow];
    s' := BeginPass(w, a, s, r, t);
    KeyResolves(def, s.claims[t].index, s'.claims[t].phase.sc);
    s' := LocalMove(w, a, s', t, OpenWait);
    var begun := s';
    s' := FreesLock(w, a, begun, t, w.lock(begun.claims[t].tx.value.key));
    s' := WaitMove(w, a, s', t, WaitLock);
    EventsAreOk(w, a, s');
    found := SomeLatest(s'.log, s'.nextEvent, s'.claims[t].tx.value.key, s'.claims[t].tx.value.begin);
    s' := WaitMove(w, a, s', t, WaitLookup(found));
  }

  lemma KeyResolves(def: Definition, p: nat, sc: StepContext)
    requires Able(def) && p < |def.ops| && def.ops[p].Wait?
    ensures Resolve(def.ops[p], sc).Some?
  {
    hide Resolve;
  }

  lemma WaitPass(w: World, a: Sys, s: Sys, r: RunId, t: Token) returns (s': Sys)
    requires OnWay(w, a, s) && AtWork(w, s, r, t) && !CanSkip(s.claims[t]) && Able(w.defs[s.runs[r].workflow])
    requires var def := w.defs[s.runs[r].workflow]; s.claims[t].index < |def.ops| && def.ops[s.claims[t].index].Wait?
    ensures OnWay(w, a, s') && Nearer(w, s', r, t, w.defs[s.runs[r].workflow], WorkDistance(w.defs[s.runs[r].workflow], s.claims[t]))
  {
    hide OnWay, Able, Resolve;
    AtWorkFacts(w, a, s, r, t);
    var found;
    s', found := LooksUp(w, a, s, r, t);
    s' := ServerMove(w, a, s', t, WaitSettle);
    if found.None? {
      s' := TimesOut(w, a, s', r);
    }
  }

  /* ---- the whole run ---- */

  /** One pass of the loop, whatever stands at the index. */
  lemma OnePass(w: World, a: Sys, s: Sys, r: RunId, t: Token) returns (s': Sys)
    requires OnWay(w, a, s) && AtWork(w, s, r, t) && Able(w.defs[s.runs[r].workflow])
    ensures OnWay(w, a, s') && Nearer(w, s', r, t, w.defs[s.runs[r].workflow], WorkDistance(w.defs[s.runs[r].workflow], s.claims[t]))
  {
    hide OnWay, Able, WorkDistance, Fence;
    var def := w.defs[s.runs[r].workflow];
    AtWorkFacts(w, a, s, r, t);
    if CanSkip(s.claims[t]) {
      s' := SkipPass(w, a, s, r, t);
    } else if s.claims[t].index == |def.ops| {
      s' := FinishPass(w, a, s, r, t);
    } else {
      match def.ops[s.claims[t].index] {
        case Step(_, _) => s' := StepPass(w, a, s, r, t);
        case Wait(_, _, _) => s' := WaitPass(w, a, s, r, t);
        case Sleep(_) => s' := SleepPass(w, a, s, r, t);
      }
    }
  }

  /** A fresh claim of a lease of a millisecond or more is at work at the cursor. */
  lemma ClaimedIsAtWork(w: World, a: Sys, s: Sys, r: RunId) returns (s': Sys, t: Token)
    requires OnWay(w, a, s) && r in s.runs && s.runs[r].state.Ready? && MILLISECOND <= w.ttl && s.runs[r].workflow in w.defs
    ensures OnWay(w, a, s') && AtWork(w, s', r, t) && s'.runs[r].workflow == s.runs[r].workflow
    ensures WorkDistance(w.defs[s.runs[r].workflow], s'.claims[t]) < ReadyDistance(w.defs[s.runs[r].workflow], s.runs[r])
  {
    hide OnWay;
    HasDefinition(w, a, s, r);
    s', t := TakesUp(w, a, s, r);
  }

  lemma {:induction false} FromWork(w: World, a: Sys, s: Sys, r: RunId, t: Token) returns (s': Sys)
    requires OnWay(w, a, s) && AtWork(w, s, r, t) && Able(w.defs[s.runs[r].workflow]) && MILLISECOND <= w.ttl
    ensures OnWay(w, a, s') && r in s'.runs && s'.runs[r].state.Completed?
    decreases WorkDistance(w.defs[s.runs[r].workflow], s.claims[t])
  {
    hide OnWay, Able;
    AtWorkFacts(w, a, s, r, t);
    s' := OnePass(w, a, s, r, t);
    if s'.runs[r].state.Ready? {
      s' := FromReady(w, a, s', r);
    } else if !s'.runs[r].state.Completed? {
      s' := FromWork(w, a, s', r, t);
    }
  }

  lemma {:induction false} FromReady(w: World, a: Sys, s: Sys, r: RunId) returns (s': Sys)
    requires OnWay(w, a, s) && r in s.runs && s.runs[r].state.Ready? && MILLISECOND <= w.ttl
    requires s.runs[r].workflow in w.defs && Able(w.defs[s.runs[r].workflow])
    ensures OnWay(w, a, s') && r in s'.runs && s'.runs[r].state.Completed?
    decreases ReadyDistance(w.defs[s.runs[r].workflow], s.runs[r])
  {
    hide OnWay, Able, AtWork;
    HasDefinition(w, a, s, r);
    var t;
    s', t := ClaimedIsAtWork(w, a, s, r);
    s' := FromWork(w, a, s', r, t);
  }

  /** The run is not held by a lease whose loss would fail it. */
  predicate CanSpareLease(run: Run) {
    run.state.Leased? ==> run.leaseFailures + 1 < run.maxAttempts
  }

  /** Time alone makes the run ready again. */
  lemma Readies(w: World, a: Sys, s: Sys, r: RunId) returns (s': Sys)
    requires OnWay(w, a, s) && r in s.runs && !s.runs[r].state.Terminal() && CanSpareLease(s.runs[r])
    ensures OnWay(w, a, s') && r in s'.runs && s'.runs[r].state.Ready? && s'.runs[r].workflow == s.runs[r].workflow
  {
    hide OnWay;
    match s.runs[r].state {
      case Waiting => s' := TimesOut(w, a, s, r);
      case Leased => s' := Recovers(w, a, s, r);
      case Ready => s' := s;
    }
  }

  /**
   * With a lease of at least a millisecond and user code that can return, each unfinished run of every reachable state has a
   * continuation that completes it.
   */
  lemma CanComplete(w: World, states: seq<Sys>, labels: seq<Label>, i: nat, r: RunId) returns (s': Sys)
    requires WorldOk(w) && IsTrace(w, states, labels) && i <= |labels| && r in states[i].runs
    requires MILLISECOND <= w.ttl && !states[i].runs[r].state.Terminal() && CanSpareLease(states[i].runs[r])
    requires states[i].runs[r].workflow in w.defs && Able(w.defs[states[i].runs[r].workflow])
    ensures Leads(w, states[i], s') && r in s'.runs && s'.runs[r].state.Completed?
  {
    hide Enabled, Apply, Able;
    assert |states| == |labels| + 1;
    hide IsTrace, WorldOk, SysOk;
    Reachable(w, states, labels, i);
    StartsHere(w, states[i]);
    s' := Readies(w, states[i], states[i], r);
    s' := FromReady(w, states[i], s', r);
  }
}
