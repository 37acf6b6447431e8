/** The whole invariant, and what it gives along complete runs of the system. */
module SystemInvariant {
  import opened Basics
  import opened Workflow
  import opened Rows
  import opened Tables
  import opened RunInvariant
  import opened Worker
  import opened Protocol
  import opened CoreInvariant
  import opened LeaseInvariant
  import opened EventSteps

  /** At most one run per workflow name and deduplication key. */
  ghost predicate DedupOk(runs: map<RunId, Run>) {
    forall a, b :: a in runs && b in runs && SameDedup(runs[b], runs[a].workflow.name, runs[a].dedup) ==> a == b
  }

  ghost predicate SysOk(w: World, s: Sys) {
    CoreOk(w, s.runs, s.claims) && LeaseOk(w, s) && EventsOk(w, s) && DedupOk(s.runs)
  }

  lemma DedupStep(w: World, s: Sys, l: Label)
    requires DedupOk(s.runs) && Enabled(w, s, l) && RowsStep(w, s, Apply(w, s, l))
    requires l.Enqueue? || Apply(w, s, l).runs.Keys == s.runs.Keys
    ensures DedupOk(Apply(w, s, l).runs)
  {
    var s' := Apply(w, s, l);
    hide RowOk, Apply, Closer, OnlyRenewed;
    assert forall r :: r in s.runs ==> SameIdentity(s.runs[r], s'.runs[r]);
    hide RowsStep;
    if l.Enqueue? {
      DedupEnqueue(w, s, l);
    }
  }

  lemma DedupEnqueue(w: World, s: Sys, l: Label)
    requires DedupOk(s.runs) && Enabled(w, s, l) && l.Enqueue?
    ensures DedupOk(Apply(w, s, l).runs)
  {
    var s' := DoEnqueue(s, l);
    if Inserts(s, l) {
      forall r | r in s.runs
        ensures !SameDedup(s.runs[r], l.workflow.name, l.dedup)
      {
      }
    }
  }

  lemma KeysStep(w: World, s: Sys, l: Label)
    requires Enabled(w, s, l) && CoreOk(w, s.runs, s.claims) && !l.Enqueue?
    ensures Apply(w, s, l).runs.Keys == s.runs.Keys
  {
    hide RowOk, ClaimAt, TokenAt, Moved, Executed, CanMove, CanExecute, Registered;
  }

  /** Every step from a good state leads to a good state and lets each row only evolve. */
  lemma SysStep(w: World, s: Sys, l: Label)
    requires WorldOk(w) && SysOk(w, s) && Enabled(w, s, l)
    ensures SysOk(w, Apply(w, s, l)) && RowsStep(w, s, Apply(w, s, l))
  {
    hide Apply, Enabled, CoreOk, LeaseOk, EventsOk, DedupOk, RowsStep, WorldOk;
    CoreStep(w, s, l);
    LeaseStep(w, s, l);
    EventStep(w, s, l);
    if !l.Enqueue? {
      KeysStep(w, s, l);
    }
    DedupStep(w, s, l);
  }

  lemma InitOk(w: World, clock: Time)
    ensures SysOk(w, Init(clock)) && Init(clock).clock == clock
  {
  }

  /** Every state of every run of the system satisfies the invariant. */
  lemma {:induction false} Reachable(w: World, states: seq<Sys>, labels: seq<Label>, i: nat)
    requires WorldOk(w) && IsTrace(w, states, labels) && i <= |labels|
    ensures SysOk(w, states[i])
  {
    hide WorldOk, SysOk, Enabled, Apply;
    if i == 0 {
      InitOk(w, states[0].clock);
    } else {
      Reachable(w, states, labels, i - 1);
      SysStep(w, states[i - 1], labels[i - 1]);
    }
  }

  lemma StepRows(w: World, states: seq<Sys>, labels: seq<Label>, i: nat)
    requires WorldOk(w) && IsTrace(w, states, labels) && i < |labels|
    ensures RowsStep(w, states[i], states[i + 1])
  {
    hide WorldOk, SysOk, Enabled, Apply, RowsStep;
    Reachable(w, states, labels, i);
    SysStep(w, states[i], labels[i]);
  }

  /** How a row may look at any later time. */
  ghost predicate Later(run: Run, after: Run) {
    && SameIdentity(run, after)
    && Keeps(run.checkpoints, after.checkpoints)
    && run.cursor <= after.cursor
    && run.attempt <= after.attempt
    && (run.state.Terminal() ==> after == run)
  }

  lemma LaterItself(run: Run)
    ensures Later(run, run)
  {
  }

  lemma EvolvesLater(def: Definition, first: Run, run: Run, after: Run)
    requires Later(first, run) && Evolves(def, run, after)
    ensures Later(first, after)
  {
  }

  lemma {:induction false} RowsLater(w: World, states: seq<Sys>, labels: seq<Label>, i: nat, j: nat, r: RunId)
    requires WorldOk(w) && IsTrace(w, states, labels) && i <= j <= |labels|
    requires r in states[i].runs
    ensures r in states[j].runs && Later(states[i].runs[r], states[j].runs[r])
    decreases j
  {
    hide Enabled, Apply;
    assert |states| == |labels| + 1;
    hide WorldOk, IsTrace, Later, Evolves, RowOk;
    if i == j {
      LaterItself(states[i].runs[r]);
    } else {
      RowsLater(w, states, labels, i, j - 1, r);
      StepRows(w, states, labels, j - 1);
      var run := states[j - 1].runs[r];
      assert RowStep(w, states[j - 1].claims, r, run, states[j].runs[r]);
      EvolvesLater(w.defs[run.workflow], states[i].runs[r], run, states[j].runs[r]);
    }
  }
}
