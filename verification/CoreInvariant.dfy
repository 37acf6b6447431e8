/** Rows, claims and tokens: the part of the system invariant that carries progress. */
module CoreInvariant {
  import opened Basics
  import opened Workflow
  import opened Rows
  import opened Tables
  import opened RunInvariant
  import opened Worker
  import opened ClaimInvariant
  import opened Protocol

  ghost predicate RowOk(w: World, r: RunId, run: Run) {
    run.workflow in w.defs && RunOk(w.defs[run.workflow], r, run)
  }

  ghost predicate ClaimAt(w: World, runs: map<RunId, Run>, t: Token, c: ClaimedRun) {
    c.run in runs && runs[c.run].workflow in w.defs && ClaimOk(w.defs[runs[c.run].workflow], t, c, runs[c.run])
  }

  /** The token on a row names the claim that holds it. */
  ghost predicate TokenAt(run: Run, r: RunId, claims: map<Token, ClaimedRun>) {
    run.token.Some? ==> run.token.value in claims && claims[run.token.value].run == r
  }

  ghost predicate CoreOk(w: World, runs: map<RunId, Run>, claims: map<Token, ClaimedRun>) {
    && (forall r :: r in runs ==> RowOk(w, r, runs[r]))
    && (forall t :: t in claims ==> ClaimAt(w, runs, t, claims[t]))
    && (forall r :: r in runs ==> TokenAt(runs[r], r, claims))
  }

  /** What a step may do to one row: evolve it, and hand the lease only to a claim that
      did not exist before. */
  ghost predicate RowStep(w: World, claims: map<Token, ClaimedRun>, r: RunId, run: Run, after: Run) {
    && run.workflow in w.defs && RowOk(w, r, after)
    && Evolves(w.defs[run.workflow], run, after)
    && (after.token == run.token || after.token.None? || (run.token.None? && after.token.value !in claims))
  }

  ghost predicate RowsStep(w: World, s: Sys, s': Sys) {
    forall r :: r in s.runs ==> r in s'.runs && RowStep(w, s.claims, r, s.runs[r], s'.runs[r])
  }

  lemma SameRow(w: World, claims: map<Token, ClaimedRun>, r: RunId, run: Run)
    requires RowOk(w, r, run)
    ensures RowStep(w, claims, r, run, run)
  {
  }

  /** A claim that is not the one acting keeps its invariant when its row evolves. */
  lemma OtherClaim(w: World, claims: map<Token, ClaimedRun>, runs: map<RunId, Run>, runs': map<RunId, Run>, t: Token)
    requires t in claims && ClaimAt(w, runs, t, claims[t]) && RowOk(w, claims[t].run, runs[claims[t].run])
    requires claims[t].run in runs'
    requires RowStep(w, claims, claims[t].run, runs[claims[t].run], runs'[claims[t].run])
    requires runs[claims[t].run] == runs'[claims[t].run] || runs'[claims[t].run].token != Some(t)
    ensures ClaimAt(w, runs', t, claims[t])
  {
    var c := claims[t];
    if runs[c.run] != runs'[c.run] {
      BystanderKeeps(w.defs[runs[c.run].workflow], t, c, runs[c.run], runs'[c.run]);
    }
  }

  /** Only one claim changed, and no row did. */
  lemma ClaimOnly(w: World, s: Sys, s': Sys, t: Token, c: ClaimedRun)
    requires CoreOk(w, s.runs, s.claims)
    requires t in s.claims && c.run == s.claims[t].run && ClaimAt(w, s.runs, t, c)
    requires s'.runs == s.runs && s'.claims == s.claims[t := c]
    ensures CoreOk(w, s'.runs, s'.claims) && RowsStep(w, s, s')
  {
    hide RunOk, ClaimOk, Evolves;
    forall r | r in s.runs
      ensures RowStep(w, s.claims, r, s.runs[r], s'.runs[r])
    {
      SameRow(w, s.claims, r, s.runs[r]);
    }
  }

  lemma ServerStep(w: World, s: Sys, t: Token, x: Exec)
    requires WorldOk(w) && CoreOk(w, s.runs, s.claims)
    requires t in s.claims && s.claims[t].run in s.runs && CanExecute(s.claims[t], x, s.clock)
    ensures CoreOk(w, DoServer(s, t, x).runs, DoServer(s, t, x).claims) && RowsStep(w, s, DoServer(s, t, x))
  {
    hide RunOk, ClaimOk, Evolves, CanExecute, Executed, Registered;
    var c := s.claims[t];
    var r := c.run;
    assert ClaimAt(w, s.runs, t, c) && RowOk(w, r, s.runs[r]);
    ExecutedOk(w.defs[s.runs[r].workflow], t, c, s.runs[r], s.clock, x);
    EffectOnly(w, s, DoServer(s, t, x), t, Executed(c, t, s.runs[r], s.clock, x));
  }

  /** One claim had a statement executed on its row. */
  lemma EffectOnly(w: World, s: Sys, s': Sys, t: Token, e: Effect)
    requires CoreOk(w, s.runs, s.claims) && t in s.claims
    requires EffectOk(w.defs[s.runs[s.claims[t].run].workflow], t, s.claims[t], s.runs[s.claims[t].run], e)
    requires s'.runs == s.runs[s.claims[t].run := e.run] && s'.claims == s.claims[t := e.claim]
    ensures CoreOk(w, s'.runs, s'.claims) && RowsStep(w, s, s')
  {
    hide RunOk, ClaimOk, RowStep, TokenAt;
    var r := s.claims[t].run;
    EffectRow(w, s, t, e);
    forall q | q in s.runs
      ensures RowStep(w, s.claims, q, s.runs[q], s'.runs[q])
    {
      if q != r {
        SameRow(w, s.claims, q, s.runs[q]);
      }
    }
    EffectTokens(w, s, s', t, e);
    forall u | u in s'.claims
      ensures ClaimAt(w, s'.runs, u, s'.claims[u])
    {
      if u != t {
        EffectOther(w, s, s', t, e, u);
      }
    }
  }

  lemma EffectTokens(w: World, s: Sys, s': Sys, t: Token, e: Effect)
    requires CoreOk(w, s.runs, s.claims) && t in s.claims
    requires EffectOk(w.defs[s.runs[s.claims[t].run].workflow], t, s.claims[t], s.runs[s.claims[t].run], e)
    requires s'.runs == s.runs[s.claims[t].run := e.run] && s'.claims == s.claims[t := e.claim]
    ensures forall q :: q in s'.runs ==> TokenAt(s'.runs[q], q, s'.claims)
    ensures forall q :: q in s'.runs ==> RowOk(w, q, s'.runs[q])
  {
    hide RunOk, ClaimOk;
    var r := s.claims[t].run;
    EffectRow(w, s, t, e);
  }

  /** A claim other than the acting one after a statement was executed. */
  lemma EffectOther(w: World, s: Sys, s': Sys, t: Token, e: Effect, u: Token)
    requires CoreOk(w, s.runs, s.claims) && t in s.claims && u in s.claims && u != t
    requires EffectOk(w.defs[s.runs[s.claims[t].run].workflow], t, s.claims[t], s.runs[s.claims[t].run], e)
    requires s'.runs == s.runs[s.claims[t].run := e.run]
    ensures ClaimAt(w, s'.runs, u, s.claims[u])
  {
    hide RunOk, ClaimOk, RowStep;
    var q := s.claims[u].run;
    assert ClaimAt(w, s.runs, u, s.claims[u]) && RowOk(w, q, s.runs[q]);
    EffectRow(w, s, t, e);
    if q == s.claims[t].run {
      OtherClaim(w, s.claims, s.runs, s'.runs, u);
    }
  }

  lemma EffectRow(w: World, s: Sys, t: Token, e: Effect)
    requires CoreOk(w, s.runs, s.claims) && t in s.claims
    requires EffectOk(w.defs[s.runs[s.claims[t].run].workflow], t, s.claims[t], s.runs[s.claims[t].run], e)
    ensures e.run.workflow == s.runs[s.claims[t].run].workflow && RowStep(w, s.claims, s.claims[t].run, s.runs[s.claims[t].run], e.run)
  {
    hide RunOk, ClaimOk;
    assert RowOk(w, s.claims[t].run, s.runs[s.claims[t].run]) && ClaimAt(w, s.runs, t, s.claims[t]);
  }

  lemma LocalStep(w: World, s: Sys, t: Token, m: Move)
    requires WorldOk(w) && CoreOk(w, s.runs, s.claims)
    requires HasDef(w, s, t) && CanMove(DefFor(w, s, t), s.claims[t], m)
    ensures var s' := WithClaim(s, t, Moved(DefFor(w, s, t), s.claims[t], m, s.clock));
            CoreOk(w, s'.runs, s'.claims) && RowsStep(w, s, s')
  {
    hide RunOk, ClaimOk, RowsStep, CanMove, Moved, WellFormed;
    var c := s.claims[t];
    var d := Moved(DefFor(w, s, t), c, m, s.clock);
    assert ClaimAt(w, s.runs, t, c) && RowOk(w, c.run, s.runs[c.run]);
    MovedOk(DefFor(w, s, t), t, c, s.runs[c.run], m, s.clock);
    MovedRun(DefFor(w, s, t), c, m, s.clock);
    hide CoreOk, WorldOk;
    ClaimOnly(w, s, WithClaim(s, t, d), t, d);
  }

  lemma MovedRun(def: Definition, c: ClaimedRun, m: Move, clock: Time)
    requires CanMove(def, c, m)
    ensures Moved(def, c, m, clock).run == c.run
  {
  }

  lemma TxStep(w: World, s: Sys, t: Token, m: TxMove)
    requires WorldOk(w) && CoreOk(w, s.runs, s.claims) && t in s.claims && CanTxMove(w, s, t, m)
    ensures CoreOk(w, DoTxMove(w, s, t, m).runs, DoTxMove(w, s, t, m).claims) && RowsStep(w, s, DoTxMove(w, s, t, m))
  {
    hide RunOk, ClaimOk, Evolves, LockFree, LatestEvent;
    var c := s.claims[t];
    assert ClaimAt(w, s.runs, t, c);
    var def := w.defs[s.runs[c.run].workflow];
    var d := DoTxMove(w, s, t, m).claims[t];
    if m.WaitRollback? {
      RollbackOk(def, t, c, s.runs[c.run], "rolled back");
    } else {
      TxMoveOk(def, t, c, s.runs[c.run], d.tx.value.phase);
    }
    ClaimOnly(w, s, DoTxMove(w, s, t, m), t, d);
  }

  /** Rows evolved, claims did not change. */
  lemma RowsOnly(w: World, s: Sys, s': Sys)
    requires CoreOk(w, s.runs, s.claims)
    requires s'.claims == s.claims && s'.runs.Keys == s.runs.Keys && RowsStep(w, s, s')
    requires forall r :: r in s.runs ==> s'.runs[r] == s.runs[r] || s'.runs[r].token.None?
    ensures CoreOk(w, s'.runs, s'.claims)
  {
    hide RunOk, ClaimOk, Evolves;
    forall t | t in s'.claims
      ensures ClaimAt(w, s'.runs, t, s'.claims[t])
    {
      assert ClaimAt(w, s.runs, t, s.claims[t]);
      OtherClaim(w, s.claims, s.runs, s'.runs, t);
    }
  }

  lemma EmitStep(w: World, s: Sys, x: nat)
    requires CoreOk(w, s.runs, s.claims) && x in s.emits
    ensures CoreOk(w, DoEmit(w, s, x).runs, DoEmit(w, s, x).claims) && RowsStep(w, s, DoEmit(w, s, x))
  {
    hide RunOk, ClaimOk, Evolves;
    var s' := DoEmit(w, s, x);
    var tx := s.emits[x];
    forall r | r in s.runs
      ensures RowStep(w, s.claims, r, s.runs[r], s'.runs[r])
      ensures s'.runs[r] == s.runs[r] || s'.runs[r].token.None?
    {
      SameRow(w, s.claims, r, s.runs[r]);
      if Awaits(s.runs[r], tx.key, tx.begin) {
        WakeKeeps(w.defs[s.runs[r].workflow], r, s.runs[r], tx.payload, tx.begin);
      }
    }
    RowsOnly(w, s, s');
  }

  lemma PromoteStep(w: World, s: Sys, picked: set<RunId>, now: Time, statement: Time)
    requires CoreOk(w, s.runs, s.claims) && picked <= s.runs.Keys
    requires forall r :: r in picked ==> Overdue(s.runs[r], statement)
    ensures var s' := DoPromote(s, picked, now, statement);
            CoreOk(w, s'.runs, s'.claims) && RowsStep(w, s, s')
  {
    hide RunOk, ClaimOk, Evolves, NoteTimeout;
    var s' := DoPromote(s, picked, now, statement);
    forall r | r in s.runs
      ensures RowStep(w, s.claims, r, s.runs[r], s'.runs[r])
      ensures s'.runs[r] == s.runs[r] || s'.runs[r].token.None?
    {
      SameRow(w, s.claims, r, s.runs[r]);
      if r in picked {
        assert Overdue(s.runs[r], statement);
        TimeOutKeeps(w.defs[s.runs[r].workflow], r, s.runs[r], now);
      }
    }
    RowsOnly(w, s, s');
  }

  lemma RecoverStep(w: World, s: Sys, picked: set<RunId>, statement: Time)
    requires CoreOk(w, s.runs, s.claims)
    requires forall r :: r in picked ==> r in s.runs && Expired(s.runs[r], statement)
    ensures CoreOk(w, DoRecover(s, picked).runs, DoRecover(s, picked).claims) && RowsStep(w, s, DoRecover(s, picked))
  {
    hide RunOk, ClaimOk, Evolves, Expired;
    var s' := DoRecover(s, picked);
    forall r | r in s.runs
      ensures RowStep(w, s.claims, r, s.runs[r], s'.runs[r])
      ensures s'.runs[r] == s.runs[r] || s'.runs[r].token.None?
    {
      SameRow(w, s.claims, r, s.runs[r]);
      if r in picked {
        RecoverKeeps(w.defs[s.runs[r].workflow], r, s.runs[r], statement, s.clock);
      }
    }
    RowsOnly(w, s, s');
  }

  lemma CancelStep(w: World, s: Sys, r: RunId)
    requires CoreOk(w, s.runs, s.claims) && r in s.runs
    ensures var s' := s.(runs := s.runs[r := Cancel(s.runs[r])]);
            CoreOk(w, s'.runs, s'.claims) && RowsStep(w, s, s')
  {
    hide RunOk, ClaimOk, Evolves;
    var s' := s.(runs := s.runs[r := Cancel(s.runs[r])]);
    forall q | q in s.runs
      ensures RowStep(w, s.claims, q, s.runs[q], s'.runs[q])
    {
      SameRow(w, s.claims, q, s.runs[q]);
      CancelKeeps(w.defs[s.runs[q].workflow], q, s.runs[q]);
    }
    RowsOnly(w, s, s');
  }

  /** One row changed or was added. */
  lemma OneRow(w: World, s: Sys, s': Sys, r: RunId, after: Run)
    requires forall q :: q in s.runs ==> RowOk(w, q, s.runs[q])
    requires s'.runs == s.runs[r := after] && RowOk(w, r, after)
    requires r in s.runs ==> RowStep(w, s.claims, r, s.runs[r], after)
    ensures forall q :: q in s'.runs ==> RowOk(w, q, s'.runs[q])
    ensures RowsStep(w, s, s')
  {
    hide RunOk, Evolves;
    forall q | q in s.runs
      ensures RowStep(w, s.claims, q, s.runs[q], s'.runs[q])
    {
      SameRow(w, s.claims, q, s.runs[q]);
    }
  }

  lemma OneToken(s: Sys, s': Sys, r: RunId, after: Run)
    requires forall q :: q in s.runs ==> TokenAt(s.runs[q], q, s.claims)
    requires s'.runs == s.runs[r := after] && TokenAt(after, r, s'.claims)
    requires forall u :: u in s.claims ==> u in s'.claims && s'.claims[u].run == s.claims[u].run
    ensures forall q :: q in s'.runs ==> TokenAt(s'.runs[q], q, s'.claims)
  {
  }

  /** Claims on rows that lost no checkpoint and whose lease is not theirs afterwards. */
  lemma OldClaims(w: World, s: Sys, s': Sys, r: RunId, after: Run)
    requires CoreOk(w, s.runs, s.claims) && RowsStep(w, s, s') && s'.runs == s.runs[r := after]
    requires after.token.Some? ==> after.token.value !in s.claims
    ensures forall t :: t in s.claims ==> ClaimAt(w, s'.runs, t, s.claims[t])
  {
    hide RunOk, ClaimOk, RowStep;
    forall t | t in s.claims
      ensures ClaimAt(w, s'.runs, t, s.claims[t])
    {
      assert ClaimAt(w, s.runs, t, s.claims[t]);
      OtherClaim(w, s.claims, s.runs, s'.runs, t);
    }
  }

  lemma ClaimStep(w: World, s: Sys, s': Sys, r: RunId, t: Token, started: Time, now: Time)
    requires WorldOk(w) && CoreOk(w, s.runs, s.claims)
    requires r in s.runs && s.runs[r].workflow in w.defs && t !in s.claims && Claimable(s.runs[r], now)
    requires s' == DoClaim(w, s, r, t, started)
    ensures CoreOk(w, s'.runs, s'.claims)
    ensures RowsStep(w, s, s')
  {
    hide RowOk, RowStep, ClaimAt, Claimable, Claim;
    ClaimedRow(w, s, r, t, now);
    OneRow(w, s, s', r, s'.runs[r]);
    ClaimedClaim(w, s, r, t, started, now);
    OldClaims(w, s, s', r, s'.runs[r]);
    OneToken(s, s', r, s'.runs[r]);
  }

  lemma ClaimedRow(w: World, s: Sys, r: RunId, t: Token, now: Time)
    requires r in s.runs && RowOk(w, r, s.runs[r]) && t !in s.claims && Claimable(s.runs[r], now)
    ensures RowStep(w, s.claims, r, s.runs[r], Claim(s.runs[r], t, s.clock, w.ttl))
    ensures Claim(s.runs[r], t, s.clock, w.ttl).token == Some(t)
    ensures RowOk(w, r, Claim(s.runs[r], t, s.clock, w.ttl))
  {
    hide RunOk, Evolves, Claimable;
    ClaimKeeps(w.defs[s.runs[r].workflow], r, s.runs[r], t, now, s.clock, w.ttl);
  }

  lemma ClaimedClaim(w: World, s: Sys, r: RunId, t: Token, started: Time, now: Time)
    requires WorldOk(w) && r in s.runs && RowOk(w, r, s.runs[r]) && Claimable(s.runs[r], now)
    ensures ClaimAt(w, DoClaim(w, s, r, t, started).runs, t, DoClaim(w, s, r, t, started).claims[t])
  {
    hide RunOk, ClaimOk, Claimable;
    StartOk(w.defs[s.runs[r].workflow], r, t, s.runs[r], now, s.clock, started, w.ttl);
  }

  lemma RenewStep(w: World, s: Sys, tokens: set<Token>, passAt: Time)
    requires CoreOk(w, s.runs, s.claims) && tokens <= s.claims.Keys
    ensures var s' := DoRenew(w, s, tokens, passAt);
            CoreOk(w, s'.runs, s'.claims) && RowsStep(w, s, s')
  {
    hide RunOk, ClaimOk, Evolves, RowStep, Confirmed, RenewMatches;
    var s' := DoRenew(w, s, tokens, passAt);
    forall q | q in s.runs
      ensures RowStep(w, s.claims, q, s.runs[q], s'.runs[q]) && RowOk(w, q, s'.runs[q])
    {
      RenewedRow(w, s, tokens, passAt, q);
    }
    RenewedTokens(w, s, tokens, passAt);
    hide TokenAt, DoRenew;
    forall t | t in s'.claims
      ensures ClaimAt(w, s'.runs, t, s'.claims[t])
    {
      RenewedClaim(w, s, tokens, passAt, t);
    }
  }

  lemma RenewedRow(w: World, s: Sys, tokens: set<Token>, passAt: Time, q: RunId)
    requires CoreOk(w, s.runs, s.claims) && tokens <= s.claims.Keys && q in s.runs
    ensures RowStep(w, s.claims, q, s.runs[q], DoRenew(w, s, tokens, passAt).runs[q]) && RowOk(w, q, DoRenew(w, s, tokens, passAt).runs[q])
  {
    hide RunOk, ClaimOk, Evolves;
    SameRow(w, s.claims, q, s.runs[q]);
    if Renewed(s, tokens, q) {
      RenewKeeps(w.defs[s.runs[q].workflow], q, s.runs[q], s.runs[q].token.value, s.clock, w.ttl);
    }
  }

  lemma RenewedTokens(w: World, s: Sys, tokens: set<Token>, passAt: Time)
    requires CoreOk(w, s.runs, s.claims) && tokens <= s.claims.Keys
    ensures var s' := DoRenew(w, s, tokens, passAt);
            && s'.runs.Keys == s.runs.Keys && s'.claims.Keys == s.claims.Keys
            && forall q :: q in s'.runs ==> TokenAt(s'.runs[q], q, s'.claims)
  {
    hide RowOk, ClaimAt, Confirmed, RenewMatches;
  }

  lemma RenewedClaim(w: World, s: Sys, tokens: set<Token>, passAt: Time, t: Token)
    requires CoreOk(w, s.runs, s.claims) && tokens <= s.claims.Keys && t in s.claims
    ensures var s' := DoRenew(w, s, tokens, passAt);
            ClaimAt(w, s'.runs, t, s'.claims[t])
  {
    hide RunOk, ClaimOk;
    var s' := DoRenew(w, s, tokens, passAt);
    var c := s.claims[t];
    assert ClaimAt(w, s.runs, t, c) && TokenAt(s.runs[c.run], c.run, s.claims);
    if Renewed(s, tokens, c.run) {
      RenewalKeeps(w.defs[s.runs[c.run].workflow], t, c, s'.claims[t], s.runs[c.run], s'.runs[c.run]);
    }
  }

  lemma InsertStep(w: World, s: Sys, s': Sys, r: RunId, after: Run)
    requires CoreOk(w, s.runs, s.claims) && r !in s.runs && RowOk(w, r, after) && after.token.None?
    requires s'.runs == s.runs[r := after] && s'.claims == s.claims
    ensures CoreOk(w, s'.runs, s'.claims) && RowsStep(w, s, s')
  {
    hide RowOk, RowStep, ClaimAt;
    OneRow(w, s, s', r, after);
    OldClaims(w, s, s', r, after);
    OneToken(s, s', r, after);
  }

  lemma EnqueueStep(w: World, s: Sys, l: Label)
    requires WorldOk(w) && CoreOk(w, s.runs, s.claims) && l.Enqueue? && l.workflow in w.defs && 0 < l.maxAttempts
    ensures CoreOk(w, DoEnqueue(s, l).runs, DoEnqueue(s, l).claims) && RowsStep(w, s, DoEnqueue(s, l))
  {
    hide RunOk, CoreOk, RowsStep;
    if Inserts(s, l) {
      InsertedOk(w.defs[l.workflow], l.id, l.queue, l.maxAttempts, if l.at.Some? then l.at.value else l.now, l.input, l.dedup);
      InsertStep(w, s, DoEnqueue(s, l), l.id, DoEnqueue(s, l).runs[l.id]);
    } else {
      QuietStep(w, s, s);
    }
  }

  lemma QuietStep(w: World, s: Sys, s': Sys)
    requires CoreOk(w, s.runs, s.claims) && s'.runs == s.runs && s'.claims == s.claims
    ensures CoreOk(w, s'.runs, s'.claims) && RowsStep(w, s, s')
  {
    hide RunOk, ClaimOk, Evolves;
    forall q | q in s.runs
      ensures RowStep(w, s.claims, q, s.runs[q], s'.runs[q])
    {
      SameRow(w, s.claims, q, s.runs[q]);
    }
  }

  /** Every step keeps the core invariant and lets each row only evolve. */
  lemma CoreStep(w: World, s: Sys, l: Label)
    requires WorldOk(w) && CoreOk(w, s.runs, s.claims) && Enabled(w, s, l)
    ensures CoreOk(w, Apply(w, s, l).runs, Apply(w, s, l).claims) && RowsStep(w, s, Apply(w, s, l))
  {
    hide WorldOk, CoreOk, RowsStep, DoEmit, DoPromote, DoRecover, DoRenew, DoClaim, DoEnqueue, DoServer, DoTxMove,
      Moved, CanMove, CanExecute, CanTxMove, Claimable, CanEmitMove;
    match l {
      case Enqueue(_, _, _, _, _, _, _, _) => EnqueueStep(w, s, l);
      case ClaimRun(r, t, started, now, _) => ClaimStep(w, s, Apply(w, s, l), r, t, started, now);
      case RenewLeases(tokens, passAt) => RenewStep(w, s, tokens, passAt);
      case Local(t, m) => LocalStep(w, s, t, m);
      case Waiting(t, m) => TxStep(w, s, t, m);
      case Server(t, x) => ServerStep(w, s, t, x);
      case EmitCommit(x) => EmitStep(w, s, x);
      case PromoteTimedOut(picked, now, statement) => PromoteStep(w, s, picked, now, statement);
      case RecoverLeases(picked, statement) => RecoverStep(w, s, picked, statement);
      case CancelRun(r) => CancelStep(w, s, r);
      case _ => QuietStep(w, s, Apply(w, s, l));
    }
  }
}
