/** The statements as methods that update the tables in place. `clock` is what clock_timestamp()
    reads; `now` and `statement` are the transaction and statement start times the caller runs at. */
module Store {
  import opened Basics
  import opened Workflow
  import opened Rows
  import opened Tables
  import opened Selection
  import Backoff
  import Text

  const MAINTENANCE_BATCH: nat := 1024
  const PRUNE_BATCH: nat := 2048

  /** Rows a worker may claim. */
  function Eligible(runs: map<RunId, Run>, queue: string, supported: set<WorkflowKey>, locked: set<RunId>, now: Time): set<RunId> {
    set r | r in runs && r !in locked && runs[r].queue == queue && runs[r].workflow in supported && Claimable(runs[r], now)
  }

  function ExpiredRows(runs: map<RunId, Run>, locked: set<RunId>, statement: Time): set<RunId> {
    set r | r in runs && r !in locked && Expired(runs[r], statement)
  }

  function OverdueRows(runs: map<RunId, Run>, locked: set<RunId>, statement: Time): set<RunId> {
    set r | r in runs && r !in locked && Overdue(runs[r], statement)
  }

  function NextRuns(runs: map<RunId, Run>): map<RunId, Time> {
    map r | r in runs :: runs[r].nextRunAt
  }

  function LeaseEnds(runs: map<RunId, Run>): map<RunId, Time> {
    map r | r in runs :: if runs[r].leaseUntil.Some? then runs[r].leaseUntil.value else 0
  }

  function Deadlines(runs: map<RunId, Run>): map<RunId, Time> {
    map r | r in runs :: if runs[r].waitDeadline.Some? then runs[r].waitDeadline.value else 0
  }

  function Members(order: seq<RunId>): set<RunId> {
    set r | r in order
  }

  /** One expired lease: backoff from the count before it is incremented, failure at the limit. */
  method RecoverRow(run: Run, clock: Time) returns (after: Run)
    ensures after == Recover(run, clock)
  {
    after := run.(token := None, leaseUntil := None, lastError := Some("lease expired"),
                  nextRunAt := clock + Backoff.AfterLeaseFailure(run.leaseFailures), leaseFailures := run.leaseFailures + 1);
    if after.leaseFailures >= after.maxAttempts {
      after := after.(state := Failed);
    } else {
      after := after.(state := Ready);
    }
  }

  /** Recording an outcome: the first one stays. */
  method RecordOutcome(run: Run, outcome: Json) returns (checkpoints: map<nat, Json>)
    ensures checkpoints == Recorded(run, outcome)
  {
    checkpoints := run.checkpoints;
    if run.cursor !in checkpoints {
      checkpoints := checkpoints[run.cursor := outcome];
    }
  }

  method WakeRow(run: Run, payload: Json, now: Time) returns (after: Run)
    ensures after == Wake(run, payload, now)
  {
    var checkpoints := RecordOutcome(run, Received(payload));
    after := run.(state := Ready, nextRunAt := now, waitKey := None, waitDeadline := None, lastError := None, checkpoints := checkpoints);
  }

  method TimeOutRow(run: Run, now: Time) returns (after: Run)
    ensures after == TimeOut(run, now)
  {
    var checkpoints := RecordOutcome(run, TIMED_OUT);
    after := run.(state := Ready, nextRunAt := now, waitKey := None, waitDeadline := None, checkpoints := checkpoints);
  }

  /** The rows a renewal touches, each through the token it is leased under. */
  method RenewEach(runs: map<RunId, Run>, pairs: map<Token, RunId>, clock: Time, ttl: nat) returns (table: map<RunId, Run>, renewed: set<Token>)
    ensures table == RenewAll(runs, pairs, clock, ttl)
    ensures forall t :: t in renewed <==> t in pairs && pairs[t] in runs && Fence(runs[pairs[t]], t, clock)
  {
    table, renewed := runs, {};
    var rest := pairs.Keys;
    while rest != {}
      invariant rest <= pairs.Keys
      invariant table == RenewAll(runs, pairs - rest, clock, ttl)
      invariant forall t :: t in renewed <==> t in pairs && t !in rest && pairs[t] in runs && Fence(runs[pairs[t]], t, clock)
      decreases |rest|
    {
      var t :| t in rest;
      RenewOne(runs, pairs, rest, t, clock, ttl);
      if pairs[t] in runs && Fence(runs[pairs[t]], t, clock) {
        var run := runs[pairs[t]];
        table := table[pairs[t] := run.(leaseUntil := Some(clock + WholeMillis(ttl)))];
        renewed := renewed + {t};
      }
      rest := rest - {t};
    }
    assert pairs - rest == pairs;
  }

  /** One more pair changes at most the row it names. */
  lemma RenewOne(runs: map<RunId, Run>, pairs: map<Token, RunId>, rest: set<Token>, t: Token, clock: Time, ttl: nat)
    requires t in pairs && t in rest
    ensures var before := RenewAll(runs, pairs - rest, clock, ttl);
            RenewAll(runs, pairs - (rest - {t}), clock, ttl) ==
            if pairs[t] in runs && Fence(runs[pairs[t]], t, clock) then before[pairs[t] := Renew(runs[pairs[t]], clock, ttl)] else before
  {
    hide Renew;
  }

  /** The rows an emission wakes, and how many. */
  method WakeEach(runs: map<RunId, Run>, key: string, payload: Json, now: Time) returns (table: map<RunId, Run>, woken: nat)
    ensures table == WakeAll(runs, key, payload, now)
    ensures woken == |set r | r in runs && Awaits(runs[r], key, now)|
  {
    hide Wake, Awaits;
    var waiting := set r | r in runs && Awaits(runs[r], key, now);
    table, woken := runs, |waiting|;
    var rest := waiting;
    while rest != {}
      invariant rest <= waiting
      invariant table == map r | r in runs :: if r in waiting - rest then Wake(runs[r], payload, now) else runs[r]
      decreases |rest|
    {
      var r :| r in rest;
      var after := WakeRow(runs[r], payload, now);
      table := table[r := after];
      rest := rest - {r};
    }
    AllWoken(runs, waiting, table, key, payload, now);
  }

  lemma AllWoken(runs: map<RunId, Run>, waiting: set<RunId>, table: map<RunId, Run>, key: string, payload: Json, now: Time)
    requires waiting == set r | r in runs && Awaits(runs[r], key, now)
    requires table == map r | r in runs :: if r in waiting - {} then Wake(runs[r], payload, now) else runs[r]
    ensures table == WakeAll(runs, key, payload, now)
  {
    hide Wake, Awaits;
    forall r | r in runs ensures table[r] == WakeAll(runs, key, payload, now)[r] {
      assert r in waiting <==> Awaits(runs[r], key, now);
    }
  }

  /** Claiming the first rows of a batch: row `order[i]` under `tokens[i]`, each under its own. */
  method ClaimEach(runs: map<RunId, Run>, order: seq<RunId>, tokens: seq<Token>, clock: Time, ttl: nat) returns (table: map<RunId, Run>)
    requires |order| <= |tokens| && (forall i :: 0 <= i < |order| ==> order[i] in runs)
    requires forall i, j :: 0 <= i < j < |order| ==> order[i] != order[j]
    ensures table.Keys == runs.Keys
    ensures forall i :: 0 <= i < |order| ==> table[order[i]] == Claim(runs[order[i]], tokens[i], clock, ttl)
    ensures forall r :: r in runs && r !in order ==> table[r] == runs[r]
  {
    table := runs;
    var i := 0;
    while i < |order|
      invariant 0 <= i <= |order| && table.Keys == runs.Keys
      invariant forall j :: 0 <= j < i ==> table[order[j]] == Claim(runs[order[j]], tokens[j], clock, ttl)
      invariant forall r :: r in runs && r !in order[..i] ==> table[r] == runs[r]
    {
      hide Claim;
      var leased := ClaimRow(runs[order[i]], tokens[i], clock, ttl);
      table := table[order[i] := leased];
      i := i + 1;
    }
    assert order[..i] == order;
  }

  method ClaimRow(run: Run, token: Token, clock: Time, ttl: nat) returns (leased: Run)
    ensures leased == Claim(run, token, clock, ttl)
  {
    leased := run.(state := Leased, token := Some(token), leaseUntil := Some(clock + WholeMillis(ttl)));
  }

  lemma OwnTokens(runs: map<RunId, Run>, table: map<RunId, Run>, order: seq<RunId>, tokens: seq<Token>, clock: Time, ttl: nat)
    requires |order| <= |tokens| && table.Keys == runs.Keys && forall i, j :: 0 <= i < j < |tokens| ==> tokens[i] != tokens[j]
    requires forall r :: r in runs && runs[r].token.Some? ==> runs[r].token.value !in tokens
    requires forall i :: 0 <= i < |order| ==> order[i] in runs && table[order[i]] == Claim(runs[order[i]], tokens[i], clock, ttl)
    requires forall r :: r in runs && r !in order ==> table[r] == runs[r]
    ensures forall i, r :: 0 <= i < |order| && r in table && r != order[i] ==> table[r].token != Some(tokens[i])
  {
    forall i, r | 0 <= i < |order| && r in table && r != order[i] ensures table[r].token != Some(tokens[i]) {
      if r in order {
        var j :| 0 <= j < |order| && order[j] == r;
        assert table[r].token == Some(tokens[j]);
      }
    }
  }

  lemma LeasedColumns(runs: map<RunId, Run>, table: map<RunId, Run>, order: seq<RunId>, tokens: seq<Token>, clock: Time, ttl: nat)
    requires |order| <= |tokens| && forall i :: 0 <= i < |order| ==> order[i] in runs && order[i] in table
    requires forall i :: 0 <= i < |order| ==> table[order[i]] == Claim(runs[order[i]], tokens[i], clock, ttl)
    ensures forall i :: 0 <= i < |order| ==>
              var until := clock + ttl / 1_000_000 * 1_000_000;
              table[order[i]] == runs[order[i]].(state := Leased, token := Some(tokens[i]), leaseUntil := Some(until))
  {
  }

  /** Leased under the token, with a lease that ends after the clock. */
  ghost predicate HeldUnder(run: Run, token: Token, clock: Time) {
    run.state.Leased? && run.token == Some(token) && run.leaseUntil.Some? && clock < run.leaseUntil.value
  }

  /** Waiting on the key, with a deadline after `now`. */
  ghost predicate AwaitsKey(run: Run, key: string, now: Time) {
    run.state.Waiting? && run.waitKey == Some(key) && run.waitDeadline.Some? && now < run.waitDeadline.value
  }

  /** The row is unlocked, ready and due, in the worker's queue and of a workflow it supports. */
  ghost predicate MayClaim(runs: map<RunId, Run>, queue: string, supported: set<WorkflowKey>, locked: set<RunId>, now: Time, r: RunId) {
    && r in runs && r !in locked && runs[r].state.Ready? && runs[r].nextRunAt <= now
    && runs[r].queue == queue && runs[r].workflow in supported
  }

  /** Sorts earlier by time, or at the same time by identifier. */
  ghost predicate Precedes(x: Time, a: RunId, y: Time, b: RunId) {
    x < y || (x == y && Text.Less(a, b))
  }

  ghost predicate DueFirst(runs: map<RunId, Run>, a: RunId, b: RunId) {
    a in runs && b in runs && Precedes(runs[a].nextRunAt, a, runs[b].nextRunAt, b)
  }

  lemma EligibleRows(runs: map<RunId, Run>, queue: string, supported: set<WorkflowKey>, locked: set<RunId>, now: Time)
    ensures Eligible(runs, queue, supported, locked, now) <= NextRuns(runs).Keys
  {
  }

  lemma ClaimsFirstDue(runs: map<RunId, Run>, queue: string, supported: set<WorkflowKey>, locked: set<RunId>, now: Time, limit: nat, order: seq<RunId>)
    requires Selects(NextRuns(runs), Eligible(runs, queue, supported, locked, now), limit, order)
    ensures |order| <= limit && (forall i :: 0 <= i < |order| ==> order[i] in runs)
    ensures forall i, j :: 0 <= i < j < |order| ==> order[i] != order[j]
    ensures forall r :: r in order ==> MayClaim(runs, queue, supported, locked, now, r)
    ensures |order| < limit ==> forall r :: r in runs && r !in order ==> !MayClaim(runs, queue, supported, locked, now, r)
    ensures forall i, j :: 0 <= i < j < |order| ==> DueFirst(runs, order[i], order[j])
    ensures forall i, r :: 0 <= i < |order| && r !in order && MayClaim(runs, queue, supported, locked, now, r) ==> DueFirst(runs, order[i], r)
  {
    if |order| < limit {
      AllTaken(NextRuns(runs), Eligible(runs, queue, supported, locked, now), limit, order);
      assert forall r :: r in Members(order) <==> r in order;
    }
  }

  /** The row is unlocked and its lease ended before the statement started. */
  ghost predicate LeaseOver(runs: map<RunId, Run>, locked: set<RunId>, statement: Time, r: RunId) {
    r in runs && r !in locked && runs[r].state.Leased? && runs[r].leaseUntil.Some? && runs[r].leaseUntil.value < statement
  }

  ghost predicate EndedFirst(runs: map<RunId, Run>, a: RunId, b: RunId) {
    && a in runs && b in runs && runs[a].leaseUntil.Some? && runs[b].leaseUntil.Some?
    && Precedes(runs[a].leaseUntil.value, a, runs[b].leaseUntil.value, b)
  }

  /** The row is unlocked and its wait's deadline has come. */
  ghost predicate WaitOver(runs: map<RunId, Run>, locked: set<RunId>, statement: Time, r: RunId) {
    r in runs && r !in locked && runs[r].state.Waiting? && runs[r].waitDeadline.Some? && runs[r].waitDeadline.value <= statement
  }

  ghost predicate DeadlineFirst(runs: map<RunId, Run>, a: RunId, b: RunId) {
    && a in runs && b in runs && runs[a].waitDeadline.Some? && runs[b].waitDeadline.Some?
    && Precedes(runs[a].waitDeadline.value, a, runs[b].waitDeadline.value, b)
  }

  lemma RecoversFirstEnded(runs: map<RunId, Run>, locked: set<RunId>, statement: Time, order: seq<RunId>)
    requires Selects(LeaseEnds(runs), ExpiredRows(runs, locked, statement), MAINTENANCE_BATCH, order)
    ensures |order| <= 1024 && forall r :: r in order ==> LeaseOver(runs, locked, statement, r)
    ensures |order| < 1024 ==> forall r :: r in runs && r !in order ==> !LeaseOver(runs, locked, statement, r)
    ensures forall i, j :: 0 <= i < j < |order| ==> EndedFirst(runs, order[i], order[j])
    ensures forall i, r :: 0 <= i < |order| && r !in order && LeaseOver(runs, locked, statement, r) ==> EndedFirst(runs, order[i], r)
  {
    if |order| < 1024 {
      AllTaken(LeaseEnds(runs), ExpiredRows(runs, locked, statement), MAINTENANCE_BATCH, order);
      assert forall r :: r in Members(order) <==> r in order;
    }
  }

  lemma PromotesFirstOver(runs: map<RunId, Run>, locked: set<RunId>, statement: Time, order: seq<RunId>)
    requires Selects(Deadlines(runs), OverdueRows(runs, locked, statement), MAINTENANCE_BATCH, order)
    ensures |order| <= 1024 && forall r :: r in order ==> WaitOver(runs, locked, statement, r)
    ensures |order| < 1024 ==> forall r :: r in runs && r !in order ==> !WaitOver(runs, locked, statement, r)
    ensures forall i, j :: 0 <= i < j < |order| ==> DeadlineFirst(runs, order[i], order[j])
    ensures forall i, r :: 0 <= i < |order| && r !in order && WaitOver(runs, locked, statement, r) ==> DeadlineFirst(runs, order[i], r)
  {
    if |order| < 1024 {
      AllTaken(Deadlines(runs), OverdueRows(runs, locked, statement), MAINTENANCE_BATCH, order);
      assert forall r :: r in Members(order) <==> r in order;
    }
  }

  /** A recovered row, column by column. */
  ghost predicate IsRecovered(run: Run, after: Run, clock: Time) {
    var failures := run.leaseFailures + 1;
    after == run.(state := if failures < run.maxAttempts then Ready else Failed, leaseFailures := failures,
                  nextRunAt := clock + Backoff.RetryMillis(failures) * 1_000_000,
                  token := None, leaseUntil := None, lastError := Some("lease expired"))
  }

  lemma AllRecovered(runs: map<RunId, Run>, order: seq<RunId>, clock: Time)
    ensures var table := RecoverAll(runs, Members(order), clock);
            && table.Keys == runs.Keys
            && forall r :: r in runs ==> if r in order then IsRecovered(runs[r], table[r], clock) else table[r] == runs[r]
  {
    hide IsRecovered, Recover;
    forall r | r in order && r in runs
      ensures IsRecovered(runs[r], Recover(runs[r], clock), clock)
    {
      RecoveredIs(runs[r], clock);
    }
  }

  lemma RecoveredIs(run: Run, clock: Time)
    ensures IsRecovered(run, Recover(run, clock), clock)
  {
    Backoff.FormulasAgree(run.leaseFailures + 1);
  }

  method RecoverEach(runs: map<RunId, Run>, order: seq<RunId>, clock: Time) returns (table: map<RunId, Run>)
    requires forall i :: 0 <= i < |order| ==> order[i] in runs
    ensures table == RecoverAll(runs, Members(order), clock)
  {
    hide Recover;
    table := runs;
    var i := 0;
    while i < |order|
      invariant 0 <= i <= |order| && table == RecoverAll(runs, Members(order[..i]), clock)
    {
      assert Members(order[..i + 1]) == Members(order[..i]) + {order[i]};
      var after := RecoverRow(runs[order[i]], clock);
      table := table[order[i] := after];
      i := i + 1;
    }
    assert order[..|order|] == order;
  }

  method TimeOutEach(runs: map<RunId, Run>, order: seq<RunId>, now: Time) returns (table: map<RunId, Run>)
    requires forall i :: 0 <= i < |order| ==> order[i] in runs
    ensures table == TimeOutAll(runs, Members(order), now)
  {
    hide TimeOut;
    table := runs;
    var i := 0;
    while i < |order|
      invariant 0 <= i <= |order| && table == TimeOutAll(runs, Members(order[..i]), now)
    {
      assert Members(order[..i + 1]) == Members(order[..i]) + {order[i]};
      var after := TimeOutRow(runs[order[i]], now);
      table := table[order[i] := after];
      i := i + 1;
    }
    assert order[..|order|] == order;
  }

  class Store {
    var runs: map<RunId, Run>
    var log: set<Event>
    var nextEvent: nat
    var clock: Time

    constructor (clock: Time)
      ensures runs == map[] && log == {} && nextEvent == 0 && this.clock == clock && IdsOk(log, nextEvent)
    {
      runs, log, nextEvent, this.clock := map[], {}, 0, clock;
    }

    /** insertRun: the run that owns the deduplication key, else the new run; nothing when the
        identifier is taken. */
    method InsertRun(id: RunId, workflow: WorkflowKey, queue: string, maxAttempts: nat, at: Option<Time>, now: Time,
                     input: Json, dedup: Option<string>) returns (r: Option<RunId>)
      modifies `runs
      ensures if Duplicate(old(runs), workflow.name, dedup)
              then runs == old(runs) && r.Some? && r.value in runs && SameDedup(runs[r.value], workflow.name, dedup)
              else if id in old(runs) then runs == old(runs) && r.None?
              else r == Some(id) &&
                   runs == old(runs)[id := Inserted(workflow, queue, maxAttempts, if at.Some? then at.value else now, input, dedup)]
      ensures r == Some(id) && id !in old(runs) ==>
                var run := runs[id];
                && run.workflow == workflow && run.queue == queue && run.maxAttempts == maxAttempts && run.input == input && run.dedup == dedup
                && run.state.Ready? && run.nextRunAt == (if at.Some? then at.value else now) && run.cursor == 0 && run.checkpoints == map[]
                && run.attempt == 0 && run.leaseFailures == 0 && run.output.None? && run.lastError.None?
                && run.token.None? && run.leaseUntil.None? && run.waitKey.None? && run.waitDeadline.None?
      ensures dedup.Some? && r.Some? && r.value in old(runs) ==> runs[r.value].workflow.name == workflow.name && runs[r.value].dedup == dedup
      ensures id !in old(runs) && r != Some(id) ==>
                dedup.Some? && exists q :: q in runs && runs[q].workflow.name == workflow.name && runs[q].dedup == dedup
    {
      var rest := runs.Keys;
      while rest != {}
        invariant rest <= runs.Keys
        invariant forall q :: q in runs && q !in rest ==> !SameDedup(runs[q], workflow.name, dedup)
        decreases |rest|
      {
        var q :| q in rest;
        if SameDedup(runs[q], workflow.name, dedup) {
          return Some(q);
        }
        rest := rest - {q};
      }
      if id in runs {
        return None;
      }
      var due := now;
      if at.Some? {
        due := at.value;
      }
      runs := runs[id := Inserted(workflow, queue, maxAttempts, due, input, dedup)];
      return Some(id);
    }

    /** claim: leases the first due rows of supported workflows, each under its own new token. */
    method ClaimReady(queue: string, limit: nat, supported: set<WorkflowKey>, locked: set<RunId>, now: Time, ttl: nat, tokens: seq<Token>)
      returns (order: seq<RunId>)
      requires limit <= |tokens| && forall i, j :: 0 <= i < j < |tokens| ==> tokens[i] != tokens[j]
      requires forall r :: r in runs && runs[r].token.Some? ==> runs[r].token.value !in tokens
      modifies `runs
      ensures Selects(NextRuns(old(runs)), Eligible(old(runs), queue, supported, locked, now), limit, order)
      ensures runs.Keys == old(runs).Keys && |order| <= limit
      ensures forall i :: 0 <= i < |order| ==> runs[order[i]] == Claim(old(runs)[order[i]], tokens[i], clock, ttl)
      ensures forall r :: r in runs && r !in order ==> runs[r] == old(runs)[r]
      ensures forall i, r :: 0 <= i < |order| && r in runs && r != order[i] ==> runs[r].token != Some(tokens[i])
      ensures forall r :: r in order ==> MayClaim(old(runs), queue, supported, locked, now, r)
      ensures |order| < limit ==> forall r :: r in old(runs) && r !in order ==> !MayClaim(old(runs), queue, supported, locked, now, r)
      ensures forall i, j :: 0 <= i < j < |order| ==> DueFirst(old(runs), order[i], order[j])
      ensures forall i, r :: 0 <= i < |order| && r !in order && MayClaim(old(runs), queue, supported, locked, now, r) ==>
                DueFirst(old(runs), order[i], r)
      ensures forall i :: 0 <= i < |order| ==>
                var until := clock + ttl / 1_000_000 * 1_000_000;
                runs[order[i]] == old(runs)[order[i]].(state := Leased, token := Some(tokens[i]), leaseUntil := Some(until))
    {
      hide Eligible, NextRuns, Selects, Claim, MayClaim, DueFirst;
      EligibleRows(runs, queue, supported, locked, now);
      order := Take(NextRuns(runs), Eligible(runs, queue, supported, locked, now), limit);
      ClaimsFirstDue(runs, queue, supported, locked, now, limit, order);
      runs := ClaimEach(runs, order, tokens, clock, ttl);
      OwnTokens(old(runs), runs, order, tokens, clock, ttl);
      LeasedColumns(old(runs), runs, order, tokens, clock, ttl);
    }

    /** renewLeases: extends the live leases among the sent pairs and answers their tokens. */
    method RenewLeases(pairs: map<Token, RunId>, ttl: nat) returns (renewed: set<Token>)
      modifies `runs
      ensures runs == RenewAll(old(runs), pairs, clock, ttl)
      ensures forall t :: t in renewed <==> t in pairs && pairs[t] in old(runs) && HeldUnder(old(runs)[pairs[t]], t, clock)
      ensures runs.Keys == old(runs).Keys
      ensures forall r :: r in runs ==>
                var run := old(runs)[r];
                var until := Some(clock + ttl / 1_000_000 * 1_000_000);
                runs[r] == if exists t :: t in renewed && pairs[t] == r then run.(leaseUntil := until) else run
    {
      runs, renewed := RenewEach(runs, pairs, clock, ttl);
    }

    /** commitStep: `reply` is NoRow when nothing matched, else Advanced with the value the position held before, if any. */
    method CommitStep(id: RunId, token: Token, index: nat, value: Json, complete: bool) returns (reply: CommitReply)
      modifies `runs
      ensures id !in old(runs) ==> runs == old(runs) && reply.NoRow?
      ensures id in old(runs) ==>
                var (after, answer) := Rows.CommitStep(old(runs)[id], token, clock, index, value, complete);
                runs == old(runs)[id := after] && reply == answer
      ensures reply.Advanced? <==> id in old(runs) && HeldUnder(old(runs)[id], token, clock) && old(runs)[id].cursor <= index
      ensures reply.NoRow? ==> runs == old(runs)
      ensures reply.Advanced? ==>
                var run := old(runs)[id];
                var existing := if index in run.checkpoints then Some(run.checkpoints[index]) else None;
                var stored := if existing.Some? then existing.value else value;
                var advanced := run.(cursor := index + 1, lastError := None, leaseFailures := 0, output := None,
                                     checkpoints := run.checkpoints[index := stored]);
                var ended := advanced.(state := Completed, output := Some(stored), token := None, leaseUntil := None);
                reply.existing == existing && runs == old(runs)[id := if complete then ended else advanced]
    {
      if id !in runs || !Fence(runs[id], token, clock) || runs[id].cursor > index {
        return NoRow;
      }
      var run := runs[id];
      var existing := None;
      var stored := value;
      if index in run.checkpoints {
        existing := Some(run.checkpoints[index]);
        stored := run.checkpoints[index];
        assert run.checkpoints[index := stored] == run.checkpoints;
      } else {
        run := run.(checkpoints := run.checkpoints[index := value]);
      }
      run := run.(cursor := index + 1, lastError := None, leaseFailures := 0, output := None);
      if complete {
        run := run.(state := Completed, output := Some(stored), token := None, leaseUntil := None);
      }
      runs := runs[id := run];
      return Advanced(existing);
    }

    /** completeRun */
    method CompleteRun(id: RunId, token: Token, cursor: nat, output: Option<Json>) returns (rows: nat)
      modifies `runs
      ensures rows == if id in old(runs) && HeldUnder(old(runs)[id], token, clock) then 1 else 0
      ensures rows == 0 ==> runs == old(runs)
      ensures id !in old(runs) ==> runs == old(runs)
      ensures id in old(runs) ==> runs == old(runs)[id := Rows.CompleteRun(old(runs)[id], token, clock, cursor, output)]
      ensures rows == 1 ==>
                runs == old(runs)[id := old(runs)[id].(state := Completed, cursor := cursor, output := output, token := None,
                                                       leaseUntil := None, lastError := None)]
    {
      rows := 0;
      if id in runs && Fence(runs[id], token, clock) {
        runs := runs[id := runs[id].(state := Completed, cursor := cursor, output := output, token := None, leaseUntil := None, lastError := None)];
        rows := 1;
      }
    }

    /** parkSleep */
    method ParkSleep(id: RunId, token: Token, now: Time, next: nat, duration: nat) returns (rows: nat)
      modifies `runs
      ensures rows == if id in old(runs) && HeldUnder(old(runs)[id], token, clock) then 1 else 0
      ensures rows == 0 ==> runs == old(runs)
      ensures id !in old(runs) ==> runs == old(runs)
      ensures id in old(runs) ==> runs == old(runs)[id := Rows.ParkSleep(old(runs)[id], token, clock, now, next, duration)]
      ensures rows == 1 ==>
                var due := now + duration / 1_000_000 * 1_000_000;
                runs == old(runs)[id := old(runs)[id].(state := Ready, cursor := next, nextRunAt := due, token := None,
                                                       leaseUntil := None, lastError := None, leaseFailures := 0)]
    {
      rows := 0;
      if id in runs && Fence(runs[id], token, clock) {
        runs := runs[id := runs[id].(state := Ready, cursor := next, nextRunAt := now + WholeMillis(duration), token := None,
                                     leaseUntil := None, lastError := None, leaseFailures := 0)];
        rows := 1;
      }
    }

    /** parkWait */
    method ParkWait(id: RunId, token: Token, now: Time, index: nat, key: string, timeout: nat) returns (rows: nat)
      modifies `runs
      ensures rows == if id in old(runs) && HeldUnder(old(runs)[id], token, clock) then 1 else 0
      ensures rows == 0 ==> runs == old(runs)
      ensures id !in old(runs) ==> runs == old(runs)
      ensures id in old(runs) ==> runs == old(runs)[id := Rows.ParkWait(old(runs)[id], token, clock, now, index, key, timeout)]
      ensures rows == 1 ==>
                var deadline := Some(now + timeout / 1_000_000 * 1_000_000);
                runs == old(runs)[id := old(runs)[id].(state := Waiting, cursor := index, waitKey := Some(key), waitDeadline := deadline,
                                                       token := None, leaseUntil := None, lastError := None, leaseFailures := 0)]
    {
      rows := 0;
      if id in runs && Fence(runs[id], token, clock) {
        runs := runs[id := runs[id].(state := Waiting, cursor := index, waitKey := Some(key),
                                     waitDeadline := Some(now + WholeMillis(timeout)), token := None, leaseUntil := None,
                                     lastError := None, leaseFailures := 0)];
        rows := 1;
      }
    }

    /** failOrRetry */
    method FailOrRetry(id: RunId, token: Token, now: Time, attempt: nat, error: string) returns (rows: nat)
      modifies `runs
      ensures rows == if id in old(runs) && HeldUnder(old(runs)[id], token, clock) then 1 else 0
      ensures rows == 0 ==> runs == old(runs)
      ensures id !in old(runs) ==> runs == old(runs)
      ensures id in old(runs) ==> runs == old(runs)[id := Rows.FailOrRetry(old(runs)[id], token, clock, now, attempt, error)]
      ensures rows == 1 ==>
                var run := old(runs)[id];
                var state := if attempt < run.maxAttempts then Ready else Failed;
                var due := now + Backoff.RetryMillis(attempt) * 1_000_000;
                runs == old(runs)[id := run.(state := state, attempt := attempt, nextRunAt := due, lastError := Some(error),
                                             token := None, leaseUntil := None)]
    {
      rows := 0;
      if id in runs && Fence(runs[id], token, clock) {
        Backoff.FormulasAgree(if attempt < 1 then 1 else attempt);
        var run := runs[id];
        var state := Ready;
        if attempt >= run.maxAttempts {
          state := Failed;
        }
        runs := runs[id := run.(state := state, attempt := attempt, nextRunAt := now + Backoff.AfterAttempt(attempt),
                                lastError := Some(error), token := None, leaseUntil := None)];
        rows := 1;
      }
    }

    /** cancelRun */
    method CancelRun(id: RunId) returns (rows: nat)
      modifies `runs
      ensures rows == if id in old(runs) && (old(runs)[id].state.Ready? || old(runs)[id].state.Leased? || old(runs)[id].state.Waiting?) then 1 else 0
      ensures id !in old(runs) ==> runs == old(runs)
      ensures id in old(runs) ==> runs == old(runs)[id := Rows.Cancel(old(runs)[id])]
      ensures rows == 0 ==> runs == old(runs)
      ensures rows == 1 ==>
                runs == old(runs)[id := old(runs)[id].(state := Cancelled, token := None, leaseUntil := None, waitKey := None,
                                                       waitDeadline := None)]
    {
      rows := 0;
      if id in runs && (runs[id].state.Ready? || runs[id].state.Leased? || runs[id].state.Waiting?) {
        runs := runs[id := runs[id].(state := Cancelled, token := None, leaseUntil := None, waitKey := None, waitDeadline := None)];
        rows := 1;
      }
    }

    /** latestEvent */
    method FindLatestEvent(key: string, now: Time) returns (found: Option<Event>)
      requires IdsOk(log, nextEvent)
      ensures LatestEvent(log, key, now, found)
      ensures found.None? ==> forall f :: f in log && f.key == key ==> f.expires <= now
      ensures found.Some? ==> found.value in log && found.value.key == key && found.value.expires > now
      ensures found.Some? ==> forall f :: f in log && f.key == key && f.expires > now && f != found.value ==>
                f.created < found.value.created || (f.created == found.value.created && f.id < found.value.id)
    {
      found := None;
      var rest := log;
      while rest != {}
        invariant rest <= log
        invariant LatestEvent(log - rest, key, now, found)
        decreases |rest|
      {
        hide LatestEvent;
        var e :| e in rest;
        LatestWith(log, nextEvent, log - rest, e, key, now, found);
        assert log - (rest - {e}) == log - rest + {e};
        if Qualifies(e, key, now) && (found.None? || Newer(e, found.value)) {
          found := Some(e);
        }
        rest := rest - {e};
      }
      assert log - rest == log;
    }

    /** emitEvent: logs the event, wakes every run waiting on the key before its deadline, and
        leaves Received(payload) at the cursor of each of those rows. */
    method EmitEvent(key: string, payload: Json, now: Time, ttl: nat) returns (woken: nat)
      modifies `runs, `log, `nextEvent
      ensures log == old(log) + {Event(old(nextEvent), key, payload, now, now + WholeMillis(ttl))}
      ensures nextEvent == old(nextEvent) + 1 && (IdsOk(old(log), old(nextEvent)) ==> IdsOk(log, nextEvent))
      ensures runs == WakeAll(old(runs), key, payload, now)
      ensures woken == |set r | r in old(runs) && AwaitsKey(old(runs)[r], key, now)|
      ensures runs.Keys == old(runs).Keys
      ensures forall r :: r in runs ==>
                var run := old(runs)[r];
                var checkpoints := if run.cursor in run.checkpoints then run.checkpoints
                                   else run.checkpoints[run.cursor := JObject(map["received" := payload])];
                runs[r] == if !AwaitsKey(run, key, now) then run
                           else run.(state := Ready, nextRunAt := now, waitKey := None, waitDeadline := None, lastError := None,
                                     checkpoints := checkpoints)
    {
      log := log + {Event(nextEvent, key, payload, now, now + WholeMillis(ttl))};
      nextEvent := nextEvent + 1;
      runs, woken := WakeEach(runs, key, payload, now);
      assert (set r | r in old(runs) && Awaits(old(runs)[r], key, now)) == set r | r in old(runs) && AwaitsKey(old(runs)[r], key, now);
    }

    /** recoverLeases: one batch of expired leases, oldest first. */
    method RecoverLeases(statement: Time, locked: set<RunId>) returns (order: seq<RunId>)
      modifies `runs
      ensures Selects(LeaseEnds(old(runs)), ExpiredRows(old(runs), locked, statement), MAINTENANCE_BATCH, order)
      ensures runs == RecoverAll(old(runs), Members(order), clock)
      ensures |order| <= 1024 && forall r :: r in order ==> LeaseOver(old(runs), locked, statement, r)
      ensures |order| < 1024 ==> forall r :: r in old(runs) && r !in order ==> !LeaseOver(old(runs), locked, statement, r)
      ensures forall i, j :: 0 <= i < j < |order| ==> EndedFirst(old(runs), order[i], order[j])
      ensures forall i, r :: 0 <= i < |order| && r !in order && LeaseOver(old(runs), locked, statement, r) ==> EndedFirst(old(runs), order[i], r)
      ensures runs.Keys == old(runs).Keys
      ensures forall r :: r in runs ==> if r in order then IsRecovered(old(runs)[r], runs[r], clock) else runs[r] == old(runs)[r]
    {
      order := Take(LeaseEnds(runs), ExpiredRows(runs, locked, statement), MAINTENANCE_BATCH);
      RecoversFirstEnded(runs, locked, statement, order);
      runs := RecoverEach(runs, order, clock);
      AllRecovered(old(runs), order, clock);
    }

    /** promoteTimedOut: one batch of overdue waits, oldest first. */
    method PromoteTimedOut(now: Time, statement: Time, locked: set<RunId>) returns (order: seq<RunId>)
      modifies `runs
      ensures Selects(Deadlines(old(runs)), OverdueRows(old(runs), locked, statement), MAINTENANCE_BATCH, order)
      ensures runs == TimeOutAll(old(runs), Members(order), now)
      ensures |order| <= 1024 && forall r :: r in order ==> WaitOver(old(runs), locked, statement, r)
      ensures |order| < 1024 ==> forall r :: r in old(runs) && r !in order ==> !WaitOver(old(runs), locked, statement, r)
      ensures forall i, j :: 0 <= i < j < |order| ==> DeadlineFirst(old(runs), order[i], order[j])
      ensures forall i, r :: 0 <= i < |order| && r !in order && WaitOver(old(runs), locked, statement, r) ==> DeadlineFirst(old(runs), order[i], r)
      ensures runs.Keys == old(runs).Keys
      ensures forall r :: r in runs ==>
                var run := old(runs)[r];
                var checkpoints := if run.cursor in run.checkpoints then run.checkpoints else run.checkpoints[run.cursor := JText("timed_out")];
                runs[r] == if r !in order then run
                           else run.(state := Ready, nextRunAt := now, waitKey := None, waitDeadline := None, checkpoints := checkpoints)
    {
      order := Take(Deadlines(runs), OverdueRows(runs, locked, statement), MAINTENANCE_BATCH);
      PromotesFirstOver(runs, locked, statement, order);
      runs := TimeOutEach(runs, order, now);
    }

    /** pruneEvents: one batch of expired events, longest expired first. */
    method PruneEvents(statement: Time, locked: set<Event>) returns (pruned: set<Event>)
      modifies `log
      ensures pruned <= old(log) - locked && log == old(log) - pruned && |pruned| <= 2048
      ensures IdsOk(old(log), nextEvent) ==> IdsOk(log, nextEvent)
      ensures forall e :: e in pruned ==> e.expires <= statement
      ensures forall e, f :: e in pruned && f in log - locked && f.expires <= statement ==> |pruned| == 2048 && e.expires <= f.expires
      ensures |pruned| < 2048 ==> forall f :: f in log - locked ==> f.expires > statement
    {
      pruned := {};
      var rest := set e | e in log && e !in locked && e.expires <= statement;
      while |pruned| < PRUNE_BATCH && rest != {}
        invariant log == old(log)
        invariant rest == (set e | e in log && e !in locked && e.expires <= statement) - pruned
        invariant pruned <= old(log) - locked && |pruned| <= PRUNE_BATCH
        invariant forall e :: e in pruned ==> e.expires <= statement
        invariant forall e, f :: e in pruned && f in rest ==> e.expires <= f.expires
        decreases |rest|
      {
        var oldest := LongestExpired(rest);
        pruned := pruned + {oldest};
        rest := rest - {oldest};
      }
      assert forall f :: f in log - pruned && f !in locked && f.expires <= statement ==> f in rest;
      log := log - pruned;
    }
  }

  method LongestExpired(events: set<Event>) returns (m: Event)
    requires events != {}
    ensures m in events && forall e :: e in events ==> m.expires <= e.expires
  {
    m :| m in events;
    var rest := events - {m};
    while rest != {}
      invariant rest <= events && m in events
      invariant forall e :: e in events && e !in rest ==> m.expires <= e.expires
      decreases |rest|
    {
      var e :| e in rest;
      if e.expires < m.expires {
        m := e;
      }
      rest := rest - {e};
    }
  }

  /** When and under which row locks each batch ran. */
  datatype Batch = Batch(statement: Time, clock: Time, locked: set<RunId>)

  /** One of the batches recovered the row. */
  ghost predicate RecoveredBy(batches: nat -> Batch, before: Run, after: Run) {
    exists k :: 0 <= k < 8 && Expired(before, batches(k).statement) && after == Recover(before, batches(k).clock)
  }

  /** batches over recoverLeases: up to eight full batches, stopping early when a second has passed. */
  method RecoverExpiredLeases(store: Store, batches: nat -> Batch, late: nat -> bool) returns (drained: bool, ghost last: nat)
    modifies store`runs, store`clock
    ensures store.runs.Keys == old(store.runs).Keys
    ensures forall r :: r in store.runs ==> store.runs[r] == old(store.runs)[r] || RecoveredBy(batches, old(store.runs)[r], store.runs[r])
    ensures drained ==> last < 8 && forall r :: r in store.runs ==> !LeaseOver(store.runs, batches(last).locked, batches(last).statement, r)
  {
    drained := false;
    last := 0;
    var k := 0;
    while k < 8
      invariant 0 <= k <= 8 && store.runs.Keys == old(store.runs).Keys
      invariant forall r :: r in store.runs ==> store.runs[r] == old(store.runs)[r] || RecoveredBy(batches, old(store.runs)[r], store.runs[r])
    {
      ghost var runs := store.runs;
      store.clock := batches(k).clock;
      var order := store.RecoverLeases(batches(k).statement, batches(k).locked);
      forall r | r in store.runs
        ensures store.runs[r] == old(store.runs)[r] || RecoveredBy(batches, old(store.runs)[r], store.runs[r])
      {
        if r in Members(order) {
          OnceRecovered(batches, old(store.runs)[r], runs[r], store.runs[r], k);
        }
      }
      if |order| < MAINTENANCE_BATCH {
        AllTaken(LeaseEnds(runs), ExpiredRows(runs, batches(k).locked, batches(k).statement), MAINTENANCE_BATCH, order);
        assert ExpiredRows(store.runs, batches(k).locked, batches(k).statement) == {};
        drained := true;
        last := k;
        return;
      }
      if late(k) {
        return;
      }
      k := k + 1;
    }
  }

  /** A recovered row is leased no more, so no later batch takes it. */
  lemma OnceRecovered(batches: nat -> Batch, first: Run, run: Run, after: Run, k: nat)
    requires k < 8 && (run == first || RecoveredBy(batches, first, run))
    requires Expired(run, batches(k).statement) && after == Recover(run, batches(k).clock)
    ensures RecoveredBy(batches, first, after)
  {
    assert run.state.Leased?;
    assert run == first;
  }

  /** A batch below the limit took everything. */
  lemma AllTaken(rank: map<RunId, Time>, candidates: set<RunId>, limit: nat, order: seq<RunId>)
    requires candidates <= rank.Keys && Selects(rank, candidates, limit, order) && |order| < limit
    ensures Members(order) == candidates
  {
    MembersCount(order);
    SubsetOfSameSize(Members(order), candidates);
  }

  lemma {:induction false} MembersCount(order: seq<RunId>)
    requires forall i, j :: 0 <= i < j < |order| ==> order[i] != order[j]
    ensures |Members(order)| == |order|
  {
    if order == [] {
    } else {
      var init := order[..|order| - 1];
      MembersCount(init);
      assert Members(order) == Members(init) + {order[|order| - 1]};
    }
  }

  lemma SubsetOfSameSize(a: set<RunId>, b: set<RunId>)
    requires a <= b && |a| == |b|
    ensures a == b
  {
    assert |b - a| == |b| - |a|;
  }
}
