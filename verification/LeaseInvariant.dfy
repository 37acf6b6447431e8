/** Time: how a claim's confirmed local deadline relates to the lease in the database, and
    how much time passes before a lost lease can be taken by somebody else. */
module LeaseInvariant {
  import opened Basics
  import opened Workflow
  import opened Rows
  import opened Tables
  import opened RunInvariant
  import opened Worker
  import opened ClaimInvariant
  import opened Protocol
  import opened CoreInvariant
  import Backoff

  /** The part of the lease lifetime that is lost when it is sent as whole milliseconds. */
  function Slack(w: World): nat {
    w.ttl - WholeMillis(w.ttl)
  }

  const MIN_BACKOFF: Time := Backoff.BASE_MILLIS * MILLISECOND

  /** In the drive loop and not waiting for the server. */
  predicate Working(c: ClaimedRun) {
    c.phase.Driving? || InUserCode(c)
  }

  /** A working claim lost its lease by recovery or cancellation, so either nobody can take the
      run until the backoff is over, or that time has passed. */
  ghost predicate Released(t: Token, c: ClaimedRun, run: Run, latest: Option<Token>, clock: Time) {
    if latest == Some(t) then run.state.Terminal() || (run.state.Ready? && c.granted + MIN_BACKOFF <= run.nextRunAt)
    else c.granted + MIN_BACKOFF <= clock
  }

  ghost predicate LeaseAt(w: World, t: Token, c: ClaimedRun, run: Run, latest: Option<Token>, clock: Time) {
    && c.granted <= clock + WholeMillis(w.ttl)
    && c.deadline <= c.granted + Slack(w)
    && (c.confirm.Some? ==> c.confirm.value <= c.granted + Slack(w))
    && (run.token == Some(t) ==> latest == Some(t))
    && (Working(c) && run.token != Some(t) ==> Released(t, c, run, latest, clock))
  }

  ghost predicate LatestAt(r: RunId, h: History, claims: map<Token, ClaimedRun>) {
    h.latest.Some? ==> h.latest.value in claims && claims[h.latest.value].run == r
  }

  ghost predicate LeaseOk(w: World, s: Sys) {
    && s.history.Keys == s.runs.Keys
    && (forall r :: r in s.history ==> LatestAt(r, s.history[r], s.claims))
    && (forall t :: t in s.claims ==>
          s.claims[t].run in s.runs &&
          LeaseAt(w, t, s.claims[t], s.runs[s.claims[t].run], s.history[s.claims[t].run].latest, s.clock))
  }

  /** A row changed while no claim and no latest token did. */
  lemma RowEffect(w: World, t: Token, c: ClaimedRun, run: Run, after: Run, latest: Option<Token>, clock: Time)
    requires LeaseAt(w, t, c, run, latest, clock)
    requires after.token == run.token || after.token.None?
    requires after == run || (run.state.Waiting? && after.token == run.token) || after.state.Terminal() ||
             (run.token.Some? && latest == run.token && (run.token == Some(t) ==>
                (!Working(c) || (after.token == Some(t)) || (after.state.Ready? && c.granted + MIN_BACKOFF <= after.nextRunAt))))
    ensures LeaseAt(w, t, c, after, latest, clock)
  {
  }

  lemma LocalLease(w: World, def: Definition, t: Token, c: ClaimedRun, run: Run, latest: Option<Token>, clock: Time, m: Move)
    requires LeaseAt(w, t, c, run, latest, clock) && CanMove(def, c, m)
    ensures LeaseAt(w, t, Moved(def, c, m, clock), run, latest, clock)
  {
  }

  /** Executing a statement: an accepted one that leaves the claim working leaves it current. */
  lemma ServerLease(w: World, t: Token, c: ClaimedRun, run: Run, latest: Option<Token>, clock: Time, x: Exec)
    requires Working(c) ==> Idle(c)
    requires LeaseAt(w, t, c, run, latest, clock) && CanExecute(c, x, clock)
    ensures var e := Executed(c, t, run, clock, x);
            LeaseAt(w, t, e.claim, e.run, latest, clock)
  {
    assert !Working(c);
  }

  lemma WorkingIsIdle(def: Definition, t: Token, c: ClaimedRun, run: Run)
    requires ClaimOk(def, t, c, run) && Working(c)
    ensures Idle(c)
  {
  }

  lemma WorkerIsIdle(w: World, s: Sys, t: Token)
    requires CoreOk(w, s.runs, s.claims) && t in s.claims
    ensures Working(s.claims[t]) ==> Idle(s.claims[t])
  {
    hide ClaimOk, RowOk, TokenAt;
    assert ClaimAt(w, s.runs, t, s.claims[t]);
    if Working(s.claims[t]) {
      WorkingIsIdle(w.defs[s.runs[s.claims[t].run].workflow], t, s.claims[t], s.runs[s.claims[t].run]);
    }
  }

  lemma QuietLease(w: World, s: Sys, s': Sys)
    requires LeaseOk(w, s) && s.clock <= s'.clock
    requires s'.runs == s.runs && s'.claims == s.claims && s'.history == s.history
    ensures LeaseOk(w, s')
  {
  }

  lemma OneClaimLease(w: World, s: Sys, s': Sys, t: Token)
    requires LeaseOk(w, s) && t in s.claims && t in s'.claims
    requires s' == s.(claims := s'.claims) && s'.claims == s.claims[t := s'.claims[t]] && s'.claims[t].run == s.claims[t].run
    requires LeaseAt(w, t, s'.claims[t], s.runs[s.claims[t].run], s.history[s.claims[t].run].latest, s.clock)
    ensures LeaseOk(w, s')
  {
    hide LeaseAt;
  }

  lemma LocalStepLease(w: World, s: Sys, t: Token, m: Move)
    requires LeaseOk(w, s) && HasDef(w, s, t) && CanMove(DefFor(w, s, t), s.claims[t], m)
    ensures LeaseOk(w, WithClaim(s, t, Moved(DefFor(w, s, t), s.claims[t], m, s.clock)))
  {
    hide Moved, CanMove, LeaseAt, LatestAt;
    var r := s.claims[t].run;
    LocalLease(w, DefFor(w, s, t), t, s.claims[t], s.runs[r], s.history[r].latest, s.clock, m);
    MovedRun(DefFor(w, s, t), s.claims[t], m, s.clock);
    OneClaimLease(w, s, WithClaim(s, t, Moved(DefFor(w, s, t), s.claims[t], m, s.clock)), t);
  }

  lemma TxStepLease(w: World, s: Sys, t: Token, m: TxMove)
    requires LeaseOk(w, s) && t in s.claims && CanTxMove(w, s, t, m)
    ensures LeaseOk(w, DoTxMove(w, s, t, m))
  {
    hide LockFree, LatestEvent, LatestAt;
    var s' := DoTxMove(w, s, t, m);
    var r := s.claims[t].run;
    TxLease(w, t, s.claims[t], s'.claims[t], s.runs[r], s.history[r].latest, s.clock);
    hide LeaseAt;
    OneClaimLease(w, s, s', t);
  }

  /** A transaction that moves on or rolls back changes neither the deadline nor who works. */
  lemma TxLease(w: World, t: Token, c: ClaimedRun, d: ClaimedRun, run: Run, latest: Option<Token>, clock: Time)
    requires LeaseAt(w, t, c, run, latest, clock) && d == c.(tx := d.tx, phase := d.phase) && (d.phase == c.phase || d.phase.Failing?)
    ensures LeaseAt(w, t, d, run, latest, clock)
  {
  }

  lemma ServerStepLease(w: World, s: Sys, s': Sys, t: Token, x: Exec)
    requires CoreOk(w, s.runs, s.claims) && LeaseOk(w, s)
    requires t in s.claims && s.claims[t].run in s.runs && CanExecute(s.claims[t], x, s.clock)
    requires s' == DoServer(s, t, x)
    ensures LeaseOk(w, s')
  {
    hide CoreOk, CanExecute, Executed, Registered, LeaseAt;
    var c := s.claims[t];
    var r := c.run;
    WorkerIsIdle(w, s, t);
    ServerLease(w, t, c, s.runs[r], s.history[r].latest, s.clock, x);
    ServerFrame(s, t, x);
    forall u | u in s'.claims && u != t
      ensures LeaseAt(w, u, s'.claims[u], s'.runs[s'.claims[u].run], s'.history[s'.claims[u].run].latest, s'.clock)
    {
      ServerOther(w, s, s', t, x, u);
    }
  }

  lemma ServerOther(w: World, s: Sys, s': Sys, t: Token, x: Exec, u: Token)
    requires LeaseOk(w, s) && u in s.claims && u != t
    requires t in s.claims && CanExecute(s.claims[t], x, s.clock)
    requires s' == DoServer(s, t, x)
    ensures LeaseAt(w, u, s.claims[u], s'.runs[s.claims[u].run], s.history[s.claims[u].run].latest, s.clock)
  {
    hide CanExecute, Executed, Registered, Released;
    var r := s.claims[t].run;
    ServerFrame(s, t, x);
    if s.claims[u].run == r {
      RowEffect(w, u, s.claims[u], s.runs[r], s'.runs[r], s.history[r].latest, s.clock);
    }
  }

  /** What an executed statement cannot touch. */
  lemma ServerFrame(s: Sys, t: Token, x: Exec)
    requires t in s.claims && s.claims[t].run in s.runs && CanExecute(s.claims[t], x, s.clock)
    ensures var s' := DoServer(s, t, x);
            var r := s.claims[t].run;
            && s'.claims[t].run == r
            && s'.history.Keys == s.history.Keys
            && (forall q :: q in s.history ==> s'.history[q].latest == s.history[q].latest)
            && (s'.runs[r] == s.runs[r] || s.runs[r].token == Some(t))
            && (s'.runs[r].token == s.runs[r].token || s'.runs[r].token.None?)
  {
  }

  lemma BatchLease(w: World, s: Sys, s': Sys)
    requires LeaseOk(w, s) && s'.clock == s.clock && s'.claims == s.claims && s'.runs.Keys == s.runs.Keys
    requires s'.history.Keys == s.history.Keys && forall q :: q in s.history ==> s'.history[q].latest == s.history[q].latest
    requires forall t :: t in s.claims ==>
               LeaseAt(w, t, s.claims[t], s'.runs[s.claims[t].run], s.history[s.claims[t].run].latest, s.clock)
    ensures LeaseOk(w, s')
  {
    hide LeaseAt;
  }

  lemma EmitLease(w: World, s: Sys, x: nat)
    requires LeaseOk(w, s) && x in s.emits
    ensures LeaseOk(w, DoEmit(w, s, x))
  {
    hide LeaseAt, LatestAt, DoEmit;
    var s' := DoEmit(w, s, x);
    EmitFrame(w, s, x);
    forall t | t in s.claims
      ensures LeaseAt(w, t, s.claims[t], s'.runs[s.claims[t].run], s.history[s.claims[t].run].latest, s.clock)
    {
      var r := s.claims[t].run;
      RowEffect(w, t, s.claims[t], s.runs[r], s'.runs[r], s.history[r].latest, s.clock);
    }
    BatchLease(w, s, s');
  }

  lemma EmitFrame(w: World, s: Sys, x: nat)
    requires x in s.emits
    ensures var s' := DoEmit(w, s, x);
            && s'.clock == s.clock && s'.claims == s.claims && s'.runs.Keys == s.runs.Keys && s'.history.Keys == s.history.Keys
            && (forall q :: q in s.history ==> s'.history[q].latest == s.history[q].latest)
            && (forall r :: r in s.runs ==> s'.runs[r] == s.runs[r] || (s.runs[r].state.Waiting? && s'.runs[r].token == s.runs[r].token))
  {
  }

  lemma PromoteLease(w: World, s: Sys, picked: set<RunId>, now: Time, statement: Time)
    requires LeaseOk(w, s) && picked <= s.runs.Keys
    requires forall r :: r in picked ==> Overdue(s.runs[r], statement)
    ensures LeaseOk(w, DoPromote(s, picked, now, statement))
  {
    var s' := DoPromote(s, picked, now, statement);
    forall t | t in s.claims
      ensures LeaseAt(w, t, s.claims[t], s'.runs[s.claims[t].run], s.history[s.claims[t].run].latest, s.clock)
    {
      var r := s.claims[t].run;
      assert r in picked ==> Overdue(s.runs[r], statement);
      RowEffect(w, t, s.claims[t], s.runs[r], s'.runs[r], s.history[r].latest, s.clock);
    }
    BatchLease(w, s, s');
  }

  lemma RecoverLease(w: World, s: Sys, picked: set<RunId>, statement: Time)
    requires CoreOk(w, s.runs, s.claims) && LeaseOk(w, s) && statement <= s.clock
    requires forall r :: r in picked ==> r in s.runs && Expired(s.runs[r], statement)
    ensures LeaseOk(w, DoRecover(s, picked))
  {
    hide RunOk;
    var s' := DoRecover(s, picked);
    forall t | t in s.claims
      ensures LeaseAt(w, t, s.claims[t], s'.runs[s.claims[t].run], s.history[s.claims[t].run].latest, s.clock)
    {
      RecoveredLease(w, s, picked, statement, t);
    }
    BatchLease(w, s, s');
  }

  lemma RecoveredLease(w: World, s: Sys, picked: set<RunId>, statement: Time, t: Token)
    requires CoreOk(w, s.runs, s.claims) && LeaseOk(w, s) && statement <= s.clock && t in s.claims
    requires forall r :: r in picked ==> r in s.runs && Expired(s.runs[r], statement)
    ensures LeaseAt(w, t, s.claims[t], DoRecover(s, picked).runs[s.claims[t].run], s.history[s.claims[t].run].latest, s.clock)
  {
    hide PhaseOk, ViewOk, ProgressOk, CountersOk, OutputOk, Justified;
    var r := s.claims[t].run;
    var run := s.runs[r];
    assert ClaimAt(w, s.runs, t, s.claims[t]) && RowOk(w, r, run) && TokenAt(run, r, s.claims);
    if r in picked {
      assert Expired(run, statement);
      assert run.token.Some?;
      assert ClaimAt(w, s.runs, run.token.value, s.claims[run.token.value]);
      assert s.history[r].latest == run.token;
      RowEffect(w, t, s.claims[t], run, Recover(run, s.clock), s.history[r].latest, s.clock);
    }
  }

  lemma CancelLease(w: World, s: Sys, r: RunId)
    requires LeaseOk(w, s) && r in s.runs
    ensures LeaseOk(w, s.(runs := s.runs[r := Cancel(s.runs[r])]))
  {
    var s' := s.(runs := s.runs[r := Cancel(s.runs[r])]);
    forall t | t in s.claims
      ensures LeaseAt(w, t, s.claims[t], s'.runs[s.claims[t].run], s.history[s.claims[t].run].latest, s.clock)
    {
      var q := s.claims[t].run;
      RowEffect(w, t, s.claims[t], s.runs[q], s'.runs[q], s.history[q].latest, s.clock);
    }
    BatchLease(w, s, s');
  }

  lemma ClaimLease(w: World, s: Sys, r: RunId, t: Token, started: Time, now: Time)
    requires CoreOk(w, s.runs, s.claims) && LeaseOk(w, s)
    requires r in s.runs && s.runs[r].workflow in w.defs && t !in s.claims && Claimable(s.runs[r], now)
    requires started <= now <= s.clock
    ensures LeaseOk(w, DoClaim(w, s, r, t, started))
  {
    hide CoreOk, LeaseAt, DoClaim;
    var s' := DoClaim(w, s, r, t, started);
    ClaimFrame(w, s, r, t, started);
    NewLease(w, s, r, t, started);
    forall u | u in s'.claims
      ensures LeaseAt(w, u, s'.claims[u], s'.runs[s'.claims[u].run], s'.history[s'.claims[u].run].latest, s'.clock)
    {
      if u != t {
        assert s'.claims[u] == s.claims[u];
        ClaimedLease(w, s, r, t, u, started, now);
      }
    }
  }

  lemma ClaimFrame(w: World, s: Sys, r: RunId, t: Token, started: Time)
    requires r in s.runs && r in s.history && s.runs[r].workflow in w.defs && t !in s.claims
    ensures var s' := DoClaim(w, s, r, t, started);
            && s'.clock == s.clock && s'.runs.Keys == s.runs.Keys && s'.claims.Keys == s.claims.Keys + {t} && s'.claims[t].run == r
            && (forall u :: u in s.claims ==> s'.claims[u] == s.claims[u])
            && s'.history.Keys == s.history.Keys && s'.history[r].latest == Some(t)
            && (forall q :: q in s.history && q != r ==> s'.history[q] == s.history[q])
  {
  }

  lemma NewLease(w: World, s: Sys, r: RunId, t: Token, started: Time)
    requires r in s.runs && r in s.history && s.runs[r].workflow in w.defs && started <= s.clock
    ensures var s' := DoClaim(w, s, r, t, started); LeaseAt(w, t, s'.claims[t], s'.runs[r], s'.history[r].latest, s'.clock)
  {
    hide ValuesOf, Released;
  }

  lemma ClaimedLease(w: World, s: Sys, r: RunId, t: Token, u: Token, started: Time, now: Time)
    requires CoreOk(w, s.runs, s.claims) && LeaseOk(w, s) && u in s.claims && u != t
    requires r in s.runs && s.runs[r].workflow in w.defs && Claimable(s.runs[r], now) && started <= now <= s.clock
    ensures var s' := DoClaim(w, s, r, t, started);
            LeaseAt(w, u, s.claims[u], s'.runs[s.claims[u].run], s'.history[s.claims[u].run].latest, s.clock)
  {
    hide ProgressOk, CountersOk, OutputOk, Justified, ClaimOk;
    assert RowOk(w, r, s.runs[r]);
  }

  lemma RenewLease(w: World, s: Sys, tokens: set<Token>, passAt: Time)
    requires CoreOk(w, s.runs, s.claims) && LeaseOk(w, s) && tokens <= s.claims.Keys && passAt <= s.clock
    ensures LeaseOk(w, DoRenew(w, s, tokens, passAt))
  {
    hide CoreOk, LeaseAt, Confirmed, RenewMatches;
    var s' := DoRenew(w, s, tokens, passAt);
    forall t | t in s'.claims
      ensures LeaseAt(w, t, s'.claims[t], s'.runs[s'.claims[t].run], s'.history[s'.claims[t].run].latest, s'.clock)
    {
      RenewedLease(w, s, tokens, passAt, t);
    }
  }

  lemma RenewedLease(w: World, s: Sys, tokens: set<Token>, passAt: Time, t: Token)
    requires CoreOk(w, s.runs, s.claims) && LeaseOk(w, s) && tokens <= s.claims.Keys && passAt <= s.clock && t in s.claims
    ensures var s' := DoRenew(w, s, tokens, passAt);
            LeaseAt(w, t, s'.claims[t], s'.runs[s.claims[t].run], s.history[s.claims[t].run].latest, s.clock)
  {
    hide ClaimAt, RowOk, LatestAt;
    var r := s.claims[t].run;
    assert LeaseAt(w, t, s.claims[t], s.runs[r], s.history[r].latest, s.clock);
    assert TokenAt(s.runs[r], r, s.claims);
    assert Confirmed(s, tokens, t) ==> Renewed(s, tokens, r);
  }

  lemma EnqueueLease(w: World, s: Sys, l: Label)
    requires LeaseOk(w, s) && l.Enqueue?
    ensures LeaseOk(w, DoEnqueue(s, l))
  {
    hide LeaseAt, Duplicate;
  }

  /** Every step keeps the lease invariant. */
  lemma LeaseStep(w: World, s: Sys, l: Label)
    requires WorldOk(w) && CoreOk(w, s.runs, s.claims) && LeaseOk(w, s) && Enabled(w, s, l)
    ensures LeaseOk(w, Apply(w, s, l))
  {
    hide WorldOk, CoreOk, LeaseOk, DoEmit, DoPromote, DoRecover, DoRenew, DoClaim, DoEnqueue, DoServer, DoTxMove,
      Moved, CanMove, CanExecute, CanTxMove, Claimable, CanEmitMove;
    match l {
      case Enqueue(_, _, _, _, _, _, _, _) => EnqueueLease(w, s, l);
      case ClaimRun(r, t, started, now, _) => ClaimLease(w, s, r, t, started, now);
      case RenewLeases(tokens, passAt) => RenewLease(w, s, tokens, passAt);
      case Local(t, m) => LocalStepLease(w, s, t, m);
      case Waiting(t, m) => TxStepLease(w, s, t, m);
      case Server(t, x) => ServerStepLease(w, s, Apply(w, s, l), t, x);
      case EmitCommit(x) => EmitLease(w, s, x);
      case PromoteTimedOut(picked, now, statement) => PromoteLease(w, s, picked, now, statement);
      case RecoverLeases(picked, statement) => RecoverLease(w, s, picked, statement);
      case CancelRun(r) => CancelLease(w, s, r);
      case _ => QuietLease(w, s, Apply(w, s, l));
    }
  }
}
