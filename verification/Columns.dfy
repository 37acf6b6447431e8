/** Every column of every row, at every moment of every trace, is what the steps so far made of it. */
module Columns {
  import opened Basics
  import opened Workflow
  import opened Rows
  import opened Tables
  import opened RunInvariant
  import opened Worker
  import opened ClaimInvariant
  import opened Protocol
  import opened CoreInvariant
  import opened LeaseInvariant
  import opened EventSteps
  import opened SystemInvariant
  import opened Occurrences
  import opened Backoff

  /** What the invariant says of a served row. */
  lemma HolderKnows(w: World, s: Sys, t: Token, r: RunId)
    requires CoreOk(w, s.runs, s.claims) && r in s.runs && t in s.claims
    ensures FieldsOk(s.runs[r]) && (s.claims[t].run == r && s.runs[r].token == Some(t) ==> s.claims[t].attempt == s.runs[r].attempt)
  {
    hide ProgressOk, CountersOk, OutputOk, Justified, PhaseOk, StatementOk, TxOk, TokenAt;
    assert RowOk(w, r, s.runs[r]);
    assert ClaimAt(w, s.runs, t, s.claims[t]);
  }

  /** The step is nothing to the run. */
  predicate IsNothing(s: Sys, l: Label, r: RunId) {
    && !IsClaim(l, r) && !IsCancel(l, r) && !IsRecovery(l, r) && !IsTimeout(l, r)
    && !IsWake(s, l, r) && !IsRenewal(s, l, r) && !IsAccepted(s, l, r)
  }

  lemma NothingFollows(w: World, s: Sys, l: Label, r: RunId)
    requires r in s.runs && FieldsOk(s.runs[r]) && IsNothing(s, l, r)
    ensures ColumnsFollow(w, s, l, r, s.runs[r])
  {
  }

  lemma UnservedRow(s: Sys, t: Token, x: Exec, r: RunId)
    requires t in s.claims && s.claims[t].run in s.runs && CanExecute(s.claims[t], x, s.clock) && r in s.runs && !IsAccepted(s, Server(t, x), r)
    ensures DoServer(s, t, x).runs[r] == s.runs[r]
  {
    hide Registered, Answered;
  }

  lemma DrivenColumns(w: World, s: Sys, t: Token, now: Time, r: RunId)
    requires IsDriven(s, Server(t, ExecDrive(now)), r) && now <= s.clock && FieldsOk(s.runs[r])
    ensures ColumnsFollow(w, s, Server(t, ExecDrive(now)), r, ExecuteDrive(s.claims[t], t, s.runs[r], s.clock, now).run)
  {
    hide Answered;
  }

  lemma FailedColumns(w: World, s: Sys, t: Token, now: Time, r: RunId)
    requires IsFailure(s, Server(t, ExecFail(now)), r) && s.claims[t].attempt == s.runs[r].attempt && FieldsOk(s.runs[r])
    ensures ColumnsFollow(w, s, Server(t, ExecFail(now)), r, ExecuteFail(s.claims[t], t, s.runs[r], s.clock, now).run)
  {
    FormulasAgree(s.runs[r].attempt + 1);
    hide AfterAttempt, RetryMillis;
  }

  lemma SettledColumns(w: World, s: Sys, t: Token, r: RunId)
    requires IsSettled(s, Server(t, WaitSettle), r) && CanSettle(s.claims[t]) && FieldsOk(s.runs[r])
    ensures ColumnsFollow(w, s, Server(t, WaitSettle), r, Settle(s.claims[t], t, s.runs[r], s.clock).run)
  {
    hide Answered;
  }

  lemma ServedColumns(w: World, s: Sys, t: Token, x: Exec, r: RunId)
    requires CoreOk(w, s.runs, s.claims) && Enabled(w, s, Server(t, x)) && r in s.runs
    ensures r in DoServer(s, t, x).runs && ColumnsFollow(w, s, Server(t, x), r, DoServer(s, t, x).runs[r])
  {
    hide CoreOk, ColumnsFollow, FieldsOk, ExecuteDrive, ExecuteFail, Settle, Registered;
    HolderKnows(w, s, t, r);
    if !IsAccepted(s, Server(t, x), r) {
      NothingFollows(w, s, Server(t, x), r);
      UnservedRow(s, t, x, r);
    } else {
      match x {
        case ExecDrive(now) => DrivenColumns(w, s, t, now, r);
        case ExecFail(now) => FailedColumns(w, s, t, now, r);
        case WaitSettle => SettledColumns(w, s, t, r);
      }
    }
  }

  lemma RenewedColumns(w: World, s: Sys, tokens: set<Token>, at: Time, r: RunId)
    requires Enabled(w, s, RenewLeases(tokens, at)) && r in s.runs && FieldsOk(s.runs[r]) && TokenAt(s.runs[r], r, s.claims)
    ensures r in DoRenew(w, s, tokens, at).runs && ColumnsFollow(w, s, RenewLeases(tokens, at), r, DoRenew(w, s, tokens, at).runs[r])
  {
    hide Confirmed, ColumnsFollow;
    if IsRenewal(s, RenewLeases(tokens, at), r) {
      RenewedFollows(w, s, tokens, at, r);
    } else {
      NothingFollows(w, s, RenewLeases(tokens, at), r);
    }
  }

  lemma RenewedFollows(w: World, s: Sys, tokens: set<Token>, at: Time, r: RunId)
    requires IsRenewal(s, RenewLeases(tokens, at), r) && FieldsOk(s.runs[r])
    ensures ColumnsFollow(w, s, RenewLeases(tokens, at), r, Renew(s.runs[r], s.clock, w.ttl))
  {
  }

  lemma RecoveredColumns(w: World, s: Sys, picked: set<RunId>, statement: Time, r: RunId)
    requires Enabled(w, s, RecoverLeases(picked, statement)) && r in s.runs && FieldsOk(s.runs[r])
    ensures r in DoRecover(s, picked).runs && ColumnsFollow(w, s, RecoverLeases(picked, statement), r, DoRecover(s, picked).runs[r])
  {
    hide ColumnsFollow, Recover;
    if r in picked {
      RecoveredFollows(w, s, picked, statement, r);
    } else {
      NothingFollows(w, s, RecoverLeases(picked, statement), r);
    }
  }

  lemma RecoveredFollows(w: World, s: Sys, picked: set<RunId>, statement: Time, r: RunId)
    requires r in picked && r in s.runs && Expired(s.runs[r], statement) && FieldsOk(s.runs[r])
    ensures ColumnsFollow(w, s, RecoverLeases(picked, statement), r, Recover(s.runs[r], s.clock))
  {
    FormulasAgree(s.runs[r].leaseFailures + 1);
    hide AfterLeaseFailure, RetryMillis;
  }

  lemma TimedOutColumns(w: World, s: Sys, picked: set<RunId>, now: Time, statement: Time, r: RunId)
    requires Enabled(w, s, PromoteTimedOut(picked, now, statement)) && r in s.runs && FieldsOk(s.runs[r])
    ensures r in DoPromote(s, picked, now, statement).runs
    ensures ColumnsFollow(w, s, PromoteTimedOut(picked, now, statement), r, DoPromote(s, picked, now, statement).runs[r])
  {
    hide ColumnsFollow, TimeOut, NoteTimeout;
    if r in picked {
      TimedOutFollows(w, s, picked, now, statement, r);
    } else {
      NothingFollows(w, s, PromoteTimedOut(picked, now, statement), r);
    }
  }

  lemma TimedOutFollows(w: World, s: Sys, picked: set<RunId>, now: Time, statement: Time, r: RunId)
    requires r in picked && r in s.runs && Overdue(s.runs[r], statement) && FieldsOk(s.runs[r])
    ensures ColumnsFollow(w, s, PromoteTimedOut(picked, now, statement), r, TimeOut(s.runs[r], now))
  {
  }

  lemma WokenColumns(w: World, s: Sys, x: nat, r: RunId)
    requires Enabled(w, s, EmitCommit(x)) && r in s.runs && FieldsOk(s.runs[r])
    ensures r in DoEmit(w, s, x).runs && ColumnsFollow(w, s, EmitCommit(x), r, DoEmit(w, s, x).runs[r])
  {
    hide NoteWake, ColumnsFollow, Wake;
    if IsWake(s, EmitCommit(x), r) {
      WokenFollows(w, s, x, r);
    } else {
      NothingFollows(w, s, EmitCommit(x), r);
    }
  }

  lemma WokenFollows(w: World, s: Sys, x: nat, r: RunId)
    requires IsWake(s, EmitCommit(x), r) && FieldsOk(s.runs[r])
    ensures ColumnsFollow(w, s, EmitCommit(x), r, Wake(s.runs[r], s.emits[x].payload, s.emits[x].begin))
  {
  }

  lemma ClaimedFollows(w: World, s: Sys, l: Label, r: RunId)
    requires IsClaim(l, r) && r in s.runs && Claimable(s.runs[r], l.now) && FieldsOk(s.runs[r])
    ensures ColumnsFollow(w, s, l, r, Claim(s.runs[r], l.token, s.clock, w.ttl))
  {
  }

  lemma CancelledFollows(w: World, s: Sys, l: Label, r: RunId)
    requires IsCancel(l, r) && r in s.runs && FieldsOk(s.runs[r])
    ensures ColumnsFollow(w, s, l, r, Cancel(s.runs[r]))
  {
  }

  lemma ClientColumns(w: World, s: Sys, l: Label, r: RunId)
    requires Enabled(w, s, l) && (l.ClaimRun? || l.CancelRun? || l.Enqueue?) && r in s.runs && FieldsOk(s.runs[r])
    ensures r in Apply(w, s, l).runs && ColumnsFollow(w, s, l, r, Apply(w, s, l).runs[r])
  {
    hide Start, ColumnsFollow, Claim, Cancel, FieldsOk;
    if IsClaim(l, r) {
      ClaimedFollows(w, s, l, r);
    } else if IsCancel(l, r) {
      CancelledFollows(w, s, l, r);
    } else {
      NothingFollows(w, s, l, r);
    }
  }

  lemma OtherColumns(w: World, s: Sys, l: Label, r: RunId)
    requires Enabled(w, s, l) && (l.Tick? || l.Local? || l.Waiting? || l.Emitting? || l.Prune?) && r in s.runs && FieldsOk(s.runs[r])
    ensures r in Apply(w, s, l).runs && ColumnsFollow(w, s, l, r, Apply(w, s, l).runs[r])
  {
    hide ColumnsFollow, FieldsOk, Moved, CanMove, LockFree, LatestEvent;
    NothingFollows(w, s, l, r);
  }

  /** Every step does to every run, column by column, what it is to it. */
  lemma ColumnsStep(w: World, s: Sys, l: Label, r: RunId)
    requires CoreOk(w, s.runs, s.claims) && Enabled(w, s, l) && r in s.runs
    ensures r in Apply(w, s, l).runs && ColumnsFollow(w, s, l, r, Apply(w, s, l).runs[r])
  {
    hide Enabled, ColumnsFollow, FieldsOk, RunOk, ClaimAt, DoServer, DoRenew, DoEmit, DoRecover, DoPromote;
    RowFields(w, s, r);
    match l {
      case Server(t, x) => ServedColumns(w, s, t, x, r);
      case RenewLeases(tokens, at) => RenewedColumns(w, s, tokens, at, r);
      case EmitCommit(x) => WokenColumns(w, s, x, r);
      case RecoverLeases(picked, statement) => RecoveredColumns(w, s, picked, statement, r);
      case PromoteTimedOut(picked, now, statement) => TimedOutColumns(w, s, picked, now, statement, r);
      case ClaimRun(_, _, _, _, _) => ClientColumns(w, s, l, r);
      case CancelRun(_) => ClientColumns(w, s, l, r);
      case Enqueue(_, _, _, _, _, _, _, _) => ClientColumns(w, s, l, r);
      case _ => OtherColumns(w, s, l, r);
    }
  }

  lemma RowFields(w: World, s: Sys, r: RunId)
    requires CoreOk(w, s.runs, s.claims) && r in s.runs
    ensures FieldsOk(s.runs[r]) && TokenAt(s.runs[r], r, s.claims)
  {
    hide ProgressOk, CountersOk, OutputOk, Justified, ClaimAt, TokenAt, FieldsOk;
    assert RowOk(w, r, s.runs[r]);
  }

  /** A new row is what the enqueueing label says. */
  lemma EnqueuedColumns(w: World, s: Sys, l: Label, r: RunId)
    requires Enabled(w, s, l) && r !in s.runs && (!l.Enqueue? ==> Apply(w, s, l).runs.Keys == s.runs.Keys)
    ensures r in Apply(w, s, l).runs <==> IsEnqueue(s, l, r)
    ensures r in Apply(w, s, l).runs ==> IsNew(l, Apply(w, s, l).runs[r])
  {
    if l.Enqueue? {
    } else {
      hide Apply;
    }
  }

  /* ---- along a trace ---- */

  lemma StepColumns(w: World, states: seq<Sys>, labels: seq<Label>, i: nat, r: RunId)
    requires WorldOk(w) && IsTrace(w, states, labels) && i < |labels|
    ensures r in states[i].runs ==> r in states[i + 1].runs && ColumnsFollow(w, states[i], labels[i], r, states[i + 1].runs[r])
    ensures r in states[i].runs ==> SameIdentity(states[i].runs[r], states[i + 1].runs[r])
    ensures r !in states[i].runs ==> (r in states[i + 1].runs <==> IsEnqueue(states[i], labels[i], r))
    ensures r !in states[i].runs && r in states[i + 1].runs ==> IsNew(labels[i], states[i + 1].runs[r])
  {
    hide Enabled, Apply, LeaseOk, EventsOk, DedupOk, ColumnsFollow, IsEnqueue, IsNew, CoreOk;
    var s, l := states[i], labels[i];
    assert Enabled(w, s, l) && states[i + 1] == Apply(w, s, l);
    Reachable(w, states, labels, i);
    if r in s.runs {
      ColumnsStep(w, s, l, r);
      RowsLater(w, states, labels, i, i + 1, r);
    } else {
      if !l.Enqueue? {
        KeysStep(w, s, l);
      }
      EnqueuedColumns(w, s, l, r);
    }
  }

  /** Every run was enqueued by exactly one step, and is in its own columns what that step said. */
  lemma {:induction false} EnqueuedOnce(w: World, states: seq<Sys>, labels: seq<Label>, i: nat, r: RunId) returns (e: nat)
    requires WorldOk(w) && IsTrace(w, states, labels) && i <= |labels| && r in states[i].runs
    ensures e < i && IsEnqueue(states[e], labels[e], r) && AsEnqueued(labels[e], states[i].runs[r])
    ensures IsNew(labels[e], states[e + 1].runs[r])
    ensures forall k :: 0 <= k <= i ==> (r in states[k].runs <==> e < k)
    ensures forall k :: 0 <= k < i && IsEnqueue(states[k], labels[k], r) ==> k == e
  {
    hide Enabled, Apply;
    assert |states| == |labels| + 1 && states[0].runs == map[];
    hide WorldOk, IsTrace, ColumnsFollow;
    StepColumns(w, states, labels, i - 1, r);
    if r in states[i - 1].runs {
      e := EnqueuedOnce(w, states, labels, i - 1, r);
    } else {
      e := i - 1;
      NotBefore(w, states, labels, i - 1, r);
    }
  }

  lemma {:induction false} NotBefore(w: World, states: seq<Sys>, labels: seq<Label>, i: nat, r: RunId)
    requires WorldOk(w) && IsTrace(w, states, labels) && i <= |labels| && r !in states[i].runs
    ensures forall k :: 0 <= k <= i ==> r !in states[k].runs
    ensures forall k :: 0 <= k < i ==> !IsEnqueue(states[k], labels[k], r)
  {
    hide Enabled, Apply;
    assert |states| == |labels| + 1;
    hide WorldOk, IsTrace, ColumnsFollow, IsEnqueue, IsNew;
    if i == 0 {
    } else {
      StepColumns(w, states, labels, i - 1, r);
      NotBefore(w, states, labels, i - 1, r);
    }
  }

  /** Recoveries of the run's leases since it last got anywhere. */
  function RecoveriesInARow(states: seq<Sys>, labels: seq<Label>, i: nat, r: RunId): nat
    requires i <= |labels| < |states|
  {
    if i == 0 then 0
    else
      var s, l := states[i - 1], labels[i - 1];
      if IsRecovery(l, r) then RecoveriesInARow(states, labels, i - 1, r) + 1
      else if IsCommit(s, l, r) || IsSleep(s, l, r) || IsPark(s, l, r) then 0
      else RecoveriesInARow(states, labels, i - 1, r)
  }

  lemma NotYetThere(w: World, s: Sys, l: Label, r: RunId)
    requires Enabled(w, s, l) && r !in s.runs
    ensures !IsRecovery(l, r) && !IsTimeout(l, r) && !IsClaim(l, r) && !IsCancel(l, r) && !IsAccepted(s, l, r) && !IsWake(s, l, r)
    ensures !IsRenewal(s, l, r)
  {
    hide CanMove, CanTxMove, CanExecute, CanEmitMove;
  }

  lemma {:induction false} LeaseFailuresCountRecoveries(w: World, states: seq<Sys>, labels: seq<Label>, i: nat, r: RunId)
    requires WorldOk(w) && IsTrace(w, states, labels) && i <= |labels|
    ensures RecoveriesInARow(states, labels, i, r) == if r in states[i].runs then states[i].runs[r].leaseFailures else 0
  {
    hide Enabled, Apply;
    assert |states| == |labels| + 1;
    if i == 0 {
    } else {
      assert Enabled(w, states[i - 1], labels[i - 1]);
      hide WorldOk, IsTrace, IsRecovery, IsCommit, IsSleep, IsPark;
      StepColumns(w, states, labels, i - 1, r);
      LeaseFailuresCountRecoveries(w, states, labels, i - 1, r);
      if r !in states[i - 1].runs {
        NotYetThere(w, states[i - 1], labels[i - 1], r);
        OnlyServed(states[i - 1], labels[i - 1], r);
      }
    }
  }

  lemma OnlyServed(s: Sys, l: Label, r: RunId)
    requires !IsAccepted(s, l, r)
    ensures !IsCommit(s, l, r) && !IsSleep(s, l, r) && !IsPark(s, l, r) && !IsFinish(s, l, r) && !IsFailure(s, l, r)
  {
  }

  /** The error text the steps so far leave. */
  function LatestError(states: seq<Sys>, labels: seq<Label>, i: nat, r: RunId): Option<string>
    requires i <= |labels| < |states|
  {
    if i == 0 then None
    else
      var s, l := states[i - 1], labels[i - 1];
      if IsFailure(s, l, r) then Some(s.claims[l.token].fail.value)
      else if IsRecovery(l, r) then Some("lease expired")
      else if IsCommit(s, l, r) || IsSleep(s, l, r) || IsPark(s, l, r) || IsFinish(s, l, r) || IsWake(s, l, r) then None
      else LatestError(states, labels, i - 1, r)
  }

  lemma {:induction false} LastErrorIsLatest(w: World, states: seq<Sys>, labels: seq<Label>, i: nat, r: RunId)
    requires WorldOk(w) && IsTrace(w, states, labels) && i <= |labels|
    ensures LatestError(states, labels, i, r) == if r in states[i].runs then states[i].runs[r].lastError else None
  {
    hide Enabled, Apply;
    assert |states| == |labels| + 1;
    if i == 0 {
    } else {
      assert Enabled(w, states[i - 1], labels[i - 1]);
      hide WorldOk, IsTrace, IsRecovery, IsCommit, IsSleep, IsPark, IsFinish, IsWake;
      StepColumns(w, states, labels, i - 1, r);
      LastErrorIsLatest(w, states, labels, i - 1, r);
      if r !in states[i - 1].runs {
        NotYetThere(w, states[i - 1], labels[i - 1], r);
        OnlyServed(states[i - 1], labels[i - 1], r);
      }
    }
  }

  /** The token of the last claim of the run. */
  function LastToken(labels: seq<Label>, i: nat, r: RunId): Option<Token>
    requires i <= |labels|
  {
    if i == 0 then None
    else if IsClaim(labels[i - 1], r) then Some(labels[i - 1].token)
    else LastToken(labels, i - 1, r)
  }

  /** Until when the last claim or renewal of the run leased it. */
  function LastGrant(w: World, states: seq<Sys>, labels: seq<Label>, i: nat, r: RunId): Option<Time>
    requires i <= |labels| < |states|
  {
    if i == 0 then None
    else if IsClaim(labels[i - 1], r) || IsRenewal(states[i - 1], labels[i - 1], r) then Some(states[i - 1].clock + Millis(w.ttl))
    else LastGrant(w, states, labels, i - 1, r)
  }

  /** A leased row carries the token of the run's last claim, and its lease ends a lease length, in whole milliseconds,
      after the clock of the last claim or renewal. */
  lemma {:induction false} LeaseIsLastGrant(w: World, states: seq<Sys>, labels: seq<Label>, i: nat, r: RunId)
    requires WorldOk(w) && IsTrace(w, states, labels) && i <= |labels| && r in states[i].runs && states[i].runs[r].state.Leased?
    ensures states[i].runs[r].token == LastToken(labels, i, r) && states[i].runs[r].leaseUntil == LastGrant(w, states, labels, i, r)
  {
    hide Enabled, Apply;
    assert |states| == |labels| + 1;
    if i == 0 {
    } else {
      hide WorldOk, IsTrace, IsRenewal, IsCommit, IsSleep, IsPark, IsFinish, IsWake, IsFailure, IsRecovery, IsTimeout;
      StepColumns(w, states, labels, i - 1, r);
      if !IsClaim(labels[i - 1], r) {
        LeaseIsLastGrant(w, states, labels, i - 1, r);
      }
    }
  }
}
