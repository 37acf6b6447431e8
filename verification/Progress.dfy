/** Bounded work: a measure that every real change of a run lowers, a bound on the number of claims,
    and the exact meaning of the attempt counter. */
module Progress {
  import opened Basics
  import opened Workflow
  import opened Rows
  import opened Tables
  import opened RunInvariant
  import opened Worker
  import opened ClaimInvariant
  import opened Protocol
  import opened CoreInvariant
  import opened LeaseInvariant
  import opened EventSteps
  import opened SystemInvariant
  import opened Occurrences
  import opened Theorems

  /* ---- the measure as a number ---- */

  /** Digits of a mixed-radix number: attempts left, work, lease failures left. */
  function Digits(n: nat, max: nat, attemptsLeft: int, work: int, failuresLeft: int): int {
    (attemptsLeft * (2 * n + 1) + work) * (max + 1) + failuresLeft
  }

  lemma HighDigit(n: nat, max: nat, a: int, b: int, c: int, a': int, b': int, c': int)
    requires 0 <= b <= 2 * n && 0 <= b' <= 2 * n && 0 <= c <= max && 0 <= c' <= max
    requires a' < a || (a' == a && (b' < b || (b' == b && c' < c)))
    ensures Digits(n, max, a', b', c') < Digits(n, max, a, b, c)
  {
    var x, x' := a * (2 * n + 1) + b, a' * (2 * n + 1) + b';
    if a' < a {
      assert (a - a') * (2 * n + 1) >= 2 * n + 1 by { Positive(a - a', 2 * n + 1); }
      assert x' < x;
    }
    if x' < x {
      assert (x - x') * (max + 1) >= max + 1 by { Positive(x - x', max + 1); }
    } else {
      assert x' == x;
    }
  }

  lemma Positive(k: int, m: nat)
    requires 1 <= k
    ensures k * m >= m
  {
  }

  lemma DigitsNonNegative(n: nat, max: nat, a: int, b: int, c: int)
    requires 0 <= a && 0 <= b && 0 <= c
    ensures 0 <= Digits(n, max, a, b, c)
  {
    var x := a * (2 * n + 1) + b;
    assert 0 <= a * (2 * n + 1);
    assert 0 <= x * (max + 1);
  }

  function Level(def: Definition, run: Run): int {
    Digits(|def.ops|, run.maxAttempts, run.maxAttempts - run.attempt, Work(def, run), run.maxAttempts - run.leaseFailures)
  }

  /** Zero exactly for terminal runs. */
  function Measure(def: Definition, run: Run): int {
    if run.state.Terminal() then 0 else 3 * Level(def, run) + Rank(run.state) + 1
  }

  lemma WorkInRange(def: Definition, id: RunId, run: Run)
    requires RunOk(def, id, run)
    ensures 0 <= Work(def, run) <= 2 * |def.ops|
  {
  }

  lemma LevelNonNegative(def: Definition, id: RunId, run: Run)
    requires RunOk(def, id, run)
    ensures 0 <= Level(def, run)
  {
    WorkInRange(def, id, run);
    DigitsNonNegative(|def.ops|, run.maxAttempts, run.maxAttempts - run.attempt, Work(def, run), run.maxAttempts - run.leaseFailures);
  }

  /** Getting closer lowers the level, or keeps it and takes a ready run into a lease. */
  lemma CloserLowersLevel(def: Definition, id: RunId, run: Run, after: Run)
    requires RunOk(def, id, run) && RunOk(def, id, after) && after.maxAttempts == run.maxAttempts
    requires Closer(def, run, after) && !after.state.Terminal()
    ensures Level(def, after) < Level(def, run)
         || (Level(def, after) == Level(def, run) && run.state.Ready? && after.state.Leased?)
  {
    WorkInRange(def, id, run);
    WorkInRange(def, id, after);
    hide RunOk;
    var max := run.maxAttempts;
    assert run.attempt <= max && run.leaseFailures <= max && after.leaseFailures <= max by { CountersInRange(def, id, run); CountersInRange(def, id, after); }
    if after.attempt == run.attempt && Work(def, after) == Work(def, run) && after.leaseFailures == run.leaseFailures {
      assert after.state.Waiting? <==> run.state.Waiting?;
    } else {
      HighDigit(|def.ops|, max, max - run.attempt, Work(def, run), max - run.leaseFailures,
                max - after.attempt, Work(def, after), max - after.leaseFailures);
    }
  }

  lemma CountersInRange(def: Definition, id: RunId, run: Run)
    requires RunOk(def, id, run)
    ensures run.attempt <= run.maxAttempts && run.leaseFailures <= run.maxAttempts
  {
  }

  /** Every change of a run other than a lease extension strictly lowers its measure, which is
      never negative, so no run changes forever. */
  lemma EveryChangeIsProgress(w: World, states: seq<Sys>, labels: seq<Label>, i: nat, r: RunId)
    requires WorldOk(w) && IsTrace(w, states, labels) && i < |labels| && r in states[i].runs
    ensures r in states[i + 1].runs && states[i].runs[r].workflow in w.defs
    ensures var run, after := states[i].runs[r], states[i + 1].runs[r];
            var def := w.defs[run.workflow];
            && 0 <= Measure(def, after)
            && (after == run || OnlyRenewed(run, after) || Measure(def, after) < Measure(def, run))
  {
    hide Enabled, Apply;
    assert |states| == |labels| + 1;
    hide IsTrace, WorldOk, RunOk, Evolves, OnlyRenewed, Measure;
    StepRows(w, states, labels, i);
    RowsAreOk(w, states, labels, i, r);
    var run, after := states[i].runs[r], states[i + 1].runs[r];
    assert RowStep(w, states[i].claims, r, run, after);
    EvolvesLowers(w.defs[run.workflow], r, run, after);
  }

  lemma EvolvesLowers(def: Definition, r: RunId, run: Run, after: Run)
    requires RunOk(def, r, run) && RunOk(def, r, after) && Evolves(def, run, after)
    ensures 0 <= Measure(def, after) && (after == run || OnlyRenewed(run, after) || Measure(def, after) < Measure(def, run))
  {
    hide RunOk, Closer, OnlyRenewed, Level;
    LevelNonNegative(def, r, run);
    LevelNonNegative(def, r, after);
    if Closer(def, run, after) {
      CloserStarts(def, run, after);
      if !after.state.Terminal() {
        CloserLowersLevel(def, r, run, after);
      }
    }
  }

  lemma CloserStarts(def: Definition, run: Run, after: Run)
    requires Closer(def, run, after)
    ensures !run.state.Terminal()
  {
  }

  /* ---- claims are bounded ---- */

  /** What is left to pay for claims: one for every level, and one while the run is not leased. */
  function Budget(def: Definition, run: Run): int {
    if run.state.Terminal() then 0 else Level(def, run) + (if run.state.Leased? then 0 else 1)
  }

  function ClaimBound(maxAttempts: nat, n: nat): int {
    Digits(n, maxAttempts, maxAttempts, 2 * n, maxAttempts) + 1
  }

  function ClaimCount(labels: seq<Label>, r: RunId): nat {
    if labels == [] then 0
    else ClaimCount(labels[..|labels| - 1], r) + (if IsClaim(labels[|labels| - 1], r) then 1 else 0)
  }

  lemma BudgetStep(def: Definition, r: RunId, run: Run, after: Run)
    requires RunOk(def, r, run) && RunOk(def, r, after) && Evolves(def, run, after)
    ensures 0 <= Budget(def, after) <= Budget(def, run)
  {
    hide RunOk, Level;
    LevelNonNegative(def, r, run);
    LevelNonNegative(def, r, after);
    if OnlyRenewed(run, after) {
      SameLevel(def, run, after);
    } else if Closer(def, run, after) && !after.state.Terminal() {
      hide Closer;
      CloserLowersLevel(def, r, run, after);
    }
  }

  lemma SameLevel(def: Definition, run: Run, after: Run)
    requires OnlyRenewed(run, after)
    ensures Level(def, after) == Level(def, run)
  {
  }

  lemma ClaimPays(w: World, s: Sys, l: Label, r: RunId)
    requires Enabled(w, s, l) && IsClaim(l, r)
    ensures var def := w.defs[s.runs[r].workflow];
            Budget(def, Apply(w, s, l).runs[r]) == Budget(def, s.runs[r]) - 1
  {
    hide Digits;
  }

  lemma EnqueuedBudget(w: World, s: Sys, l: Label, r: RunId)
    requires Enabled(w, s, l) && r !in s.runs && r in Apply(w, s, l).runs
    requires !l.Enqueue? ==> Apply(w, s, l).runs.Keys == s.runs.Keys
    ensures var run := Apply(w, s, l).runs[r];
            run.workflow in w.defs && Budget(w.defs[run.workflow], run) == ClaimBound(run.maxAttempts, |w.defs[run.workflow].ops|)
  {
    hide Digits;
  }

  lemma {:induction false} ClaimsSpendBudget(w: World, states: seq<Sys>, labels: seq<Label>, i: nat, r: RunId)
    requires WorldOk(w) && IsTrace(w, states, labels) && i <= |labels|
    ensures r !in states[i].runs ==> ClaimCount(labels[..i], r) == 0
    ensures r in states[i].runs ==>
              && states[i].runs[r].workflow in w.defs
              && var run := states[i].runs[r];
                 var def := w.defs[run.workflow];
                 0 <= Budget(def, run) && ClaimCount(labels[..i], r) + Budget(def, run) <= ClaimBound(run.maxAttempts, |def.ops|)
  {
    hide WorldOk, Budget, ClaimBound, SysOk, Enabled, Apply, RowOk;
    if i == 0 {
    } else {
      ClaimsSpendBudget(w, states, labels, i - 1, r);
      var s, l, s' := states[i - 1], labels[i - 1], states[i];
      assert labels[..i][..i - 1] == labels[..i - 1];
      assert Enabled(w, s, l) && s' == Apply(w, s, l);
      Reachable(w, states, labels, i - 1);
      ClaimNeedsRow(w, s, l, r);
      if r in s.runs {
        StepRows(w, states, labels, i - 1);
        assert RowStep(w, s.claims, r, s.runs[r], s'.runs[r]);
        BudgetPaid(w, states, labels, i - 1, r);
      } else if r in s'.runs {
        NewKeys(w, s, l);
        EnqueuedBudget(w, s, l, r);
        BudgetNonNegative(w, states, labels, i, r);
      }
    }
  }

  lemma NewKeys(w: World, s: Sys, l: Label)
    requires SysOk(w, s) && Enabled(w, s, l)
    ensures !l.Enqueue? ==> Apply(w, s, l).runs.Keys == s.runs.Keys
  {
    hide Apply, Enabled, CoreOk, LeaseOk, EventsOk, DedupOk;
    if !l.Enqueue? {
      KeysStep(w, s, l);
    }
  }

  lemma ClaimNeedsRow(w: World, s: Sys, l: Label, r: RunId)
    requires Enabled(w, s, l)
    ensures IsClaim(l, r) ==> r in s.runs
  {
  }

  lemma BudgetNonNegative(w: World, states: seq<Sys>, labels: seq<Label>, i: nat, r: RunId)
    requires WorldOk(w) && IsTrace(w, states, labels) && i <= |labels| && r in states[i].runs
    ensures states[i].runs[r].workflow in w.defs
    ensures 0 <= Budget(w.defs[states[i].runs[r].workflow], states[i].runs[r])
  {
    hide Enabled, Apply;
    assert |states| == |labels| + 1;
    hide IsTrace, WorldOk, RunOk, Level;
    RowsAreOk(w, states, labels, i, r);
    LevelNonNegative(w.defs[states[i].runs[r].workflow], r, states[i].runs[r]);
  }

  /** A step never adds to the budget, and a claim takes one from it. */
  lemma BudgetPaid(w: World, states: seq<Sys>, labels: seq<Label>, i: nat, r: RunId)
    requires WorldOk(w) && IsTrace(w, states, labels) && i < |labels| && r in states[i].runs
    ensures r in states[i + 1].runs && states[i].runs[r].workflow in w.defs
    ensures var run, after := states[i].runs[r], states[i + 1].runs[r];
            var def := w.defs[run.workflow];
            && SameIdentity(run, after)
            && 0 <= Budget(def, after) <= Budget(def, run) - (if IsClaim(labels[i], r) then 1 else 0)
  {
    hide Enabled, Apply;
    assert |states| == |labels| + 1;
    hide WorldOk, RunOk, Budget, Closer, OnlyRenewed, Enabled, Apply;
    StepRows(w, states, labels, i);
    RowsAreOk(w, states, labels, i, r);
    RowsAreOk(w, states, labels, i + 1, r);
    var run, after := states[i].runs[r], states[i + 1].runs[r];
    assert RowStep(w, states[i].claims, r, run, after);
    BudgetStep(w.defs[run.workflow], r, run, after);
    if IsClaim(labels[i], r) {
      ClaimPays(w, states[i], labels[i], r);
    }
  }

  /** In every run of the system, each workflow run is claimed at most a number of times that depends
      only on its attempt limit and the number of its operations. */
  lemma ClaimsAreBounded(w: World, states: seq<Sys>, labels: seq<Label>, r: RunId)
    requires WorldOk(w) && IsTrace(w, states, labels)
    requires r in states[|labels|].runs && states[|labels|].runs[r].workflow in w.defs
    ensures var run := states[|labels|].runs[r];
            ClaimCount(labels, r) <= ClaimBound(run.maxAttempts, |w.defs[run.workflow].ops|)
  {
    hide IsTrace, WorldOk;
    assert labels[..|labels|] == labels;
    ClaimsSpendBudget(w, states, labels, |labels|, r);
  }

  /* ---- failure accounting ---- */

  function FailureCount(states: seq<Sys>, labels: seq<Label>, r: RunId): nat
    requires |labels| <= |states|
  {
    if labels == [] then 0
    else
      var k := |labels| - 1;
      FailureCount(states, labels[..k], r) + (if IsFailure(states[k], labels[k], r) then 1 else 0)
  }

  lemma ServerAttempt(def: Definition, t: Token, c: ClaimedRun, run: Run, clock: Time, x: Exec)
    requires ClaimOk(def, t, c, run) && CanExecute(c, x, clock)
    ensures Executed(c, t, run, clock, x).run.attempt
         == run.attempt + (if x.ExecFail? && Fence(run, t, clock) then 1 else 0)
  {
    hide PhaseOk, StatementOk, TxOk;
  }

  lemma AttemptStep(w: World, s: Sys, l: Label, r: RunId)
    requires CoreOk(w, s.runs, s.claims) && Enabled(w, s, l) && r in s.runs && r in Apply(w, s, l).runs
    ensures Apply(w, s, l).runs[r].attempt == s.runs[r].attempt + (if IsFailure(s, l, r) then 1 else 0)
  {
    hide CoreOk, Apply, Enabled;
    if l.Server? {
      ServerAttemptStep(w, s, l.token, l.exec, r);
    } else {
      OtherAttempt(w, s, l, r);
    }
  }

  lemma ServerAttemptStep(w: World, s: Sys, t: Token, x: Exec, r: RunId)
    requires CoreOk(w, s.runs, s.claims) && Enabled(w, s, Server(t, x)) && r in s.runs
    ensures r in Apply(w, s, Server(t, x)).runs
    ensures Apply(w, s, Server(t, x)).runs[r].attempt == s.runs[r].attempt + (if IsFailure(s, Server(t, x), r) then 1 else 0)
  {
    hide RowOk, ClaimOk, TokenAt, Executed, Registered;
    var c := s.claims[t];
    assert ClaimAt(w, s.runs, t, c);
    ServerAttempt(w.defs[s.runs[c.run].workflow], t, c, s.runs[c.run], s.clock, x);
  }

  /** Nothing else touches the attempt of a run. */
  lemma OtherAttempt(w: World, s: Sys, l: Label, r: RunId)
    requires Enabled(w, s, l) && !l.Server? && r in s.runs && r in Apply(w, s, l).runs
    ensures Apply(w, s, l).runs[r].attempt == s.runs[r].attempt
  {
    hide Moved, CanMove, CanTxMove, DoTxMove, CanEmitMove, Recorded, RenewMatches, Confirmed, Awaits, Duplicate, NoteWake, NoteTimeout;
    if l.Waiting? {
      WaitingRows(w, s, l.token, l.txMove);
    }
  }

  lemma WaitingRows(w: World, s: Sys, t: Token, m: TxMove)
    requires t in s.claims && CanTxMove(w, s, t, m)
    ensures DoTxMove(w, s, t, m).runs == s.runs
  {
    hide LockFree, LatestEvent;
  }

  lemma NewRunHasNoAttempts(w: World, s: Sys, l: Label, r: RunId)
    requires Enabled(w, s, l) && r !in s.runs && r in Apply(w, s, l).runs
    requires !l.Enqueue? ==> Apply(w, s, l).runs.Keys == s.runs.Keys
    ensures Apply(w, s, l).runs[r].attempt == 0
  {
  }

  /** The attempt column counts exactly the recorded failures of the run: none is lost and none is
      counted twice, whatever was retried, late or lost. */
  lemma {:induction false} AttemptCountsFailures(w: World, states: seq<Sys>, labels: seq<Label>, i: nat, r: RunId)
    requires WorldOk(w) && IsTrace(w, states, labels) && i <= |labels|
    ensures FailureCount(states, labels[..i], r) == if r in states[i].runs then states[i].runs[r].attempt else 0
  {
    hide WorldOk, Enabled, Apply, CoreOk, LeaseOk, EventsOk, DedupOk, RowsStep;
    if i == 0 {
    } else {
      AttemptCountsFailures(w, states, labels, i - 1, r);
      var s, l, s' := states[i - 1], labels[i - 1], states[i];
      assert labels[..i][..i - 1] == labels[..i - 1];
      assert Enabled(w, s, l) && s' == Apply(w, s, l);
      Reachable(w, states, labels, i - 1);
      if r in s.runs {
        RowsLater(w, states, labels, i - 1, i, r);
        AttemptStep(w, s, l, r);
      } else if r in s'.runs {
        NewKeys(w, s, l);
        NewRunHasNoAttempts(w, s, l, r);
      }
    }
  }
}
