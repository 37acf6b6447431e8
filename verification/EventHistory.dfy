/** Where the history of lookups and prunings comes from: every noted lookup is an earlier state of the run
    of the system, and every pruned event was deleted by a statement. */
module EventHistory {
  import opened Basics
  import opened Workflow
  import opened Rows
  import opened Tables
  import opened Worker
  import opened Protocol

  /* ---- pruning ---- */

  lemma PrunedStep(w: World, s: Sys, l: Label)
    requires Enabled(w, s, l)
    ensures Apply(w, s, l).pruned == if l.Prune? then s.pruned + l.events else s.pruned
  {
    hide Executed, Moved, CanMove, CanExecute, Registered, LatestEvent, LockFree;
  }

  /** The event was deleted by one of the first `n` steps. */
  predicate PrunedBy(labels: seq<Label>, n: nat, e: Event) {
    exists k :: 0 <= k < n && k < |labels| && labels[k].Prune? && e in labels[k].events
  }

  /** The pruned events are those that a prune statement deleted. */
  lemma {:induction false} PrunedByAStatement(w: World, states: seq<Sys>, labels: seq<Label>, i: nat, e: Event)
    requires IsTrace(w, states, labels) && i <= |labels|
    ensures e in states[i].pruned <==> PrunedBy(labels, i, e)
  {
    hide Enabled, Apply;
    assert |states| == |labels| + 1;
    if i == 0 {
      assert states[0].pruned == {};
    } else {
      PrunedByAStatement(w, states, labels, i - 1, e);
      PrunedStep(w, states[i - 1], labels[i - 1]);
    }
  }

  /* ---- lookups ---- */

  /** What a lookup in this state notes. */
  function LookOf(s: Sys): Look {
    Look(s.clock, |s.emitted|, s.pruned)
  }

  ghost predicate LookedIn(past: seq<Sys>, look: Look) {
    exists j :: 0 <= j < |past| && look == LookOf(past[j])
  }

  ghost predicate TxFrom(c: ClaimedRun, past: seq<Sys>) {
    c.tx.Some? && (c.tx.value.phase.Found? || c.tx.value.phase.Empty?) ==> LookedIn(past, c.tx.value.phase.look)
  }

  ghost predicate NotesFrom(h: History, past: seq<Sys>) {
    && (forall p :: p in h.registrations ==> LookedIn(past, h.registrations[p].look))
    && (forall p :: p in h.timeouts ==> LookedIn(past, h.timeouts[p].registration.look))
    && (forall p :: p in h.deliveries ==>
          LookedIn(past, if h.deliveries[p].AtLookup? then h.deliveries[p].look else h.deliveries[p].registration.look))
  }

  /** Every lookup noted in the state was made in one of these states. */
  ghost predicate LooksFrom(s: Sys, past: seq<Sys>) {
    && (forall t :: t in s.claims ==> TxFrom(s.claims[t], past))
    && (forall r :: r in s.history ==> NotesFrom(s.history[r], past))
  }

  lemma LooksLater(s: Sys, past: seq<Sys>, next: Sys)
    requires LooksFrom(s, past)
    ensures LooksFrom(s, past + [next])
  {
    forall look: Look | LookedIn(past, look) ensures LookedIn(past + [next], look) {
      var j :| 0 <= j < |past| && look == LookOf(past[j]);
      assert (past + [next])[j] == past[j];
    }
  }

  lemma MoveLooks(def: Definition, c: ClaimedRun, m: Move, clock: Time)
    requires CanMove(def, c, m)
    ensures Moved(def, c, m, clock).tx == c.tx || (Moved(def, c, m, clock).tx.Some? && Moved(def, c, m, clock).tx.value.phase.Begun?)
  {
  }

  lemma LocalLooks(w: World, s: Sys, t: Token, m: Move, past: seq<Sys>)
    requires HasDef(w, s, t) && CanMove(DefFor(w, s, t), s.claims[t], m) && LooksFrom(s, past)
    ensures LooksFrom(WithClaim(s, t, Moved(DefFor(w, s, t), s.claims[t], m, s.clock)), past)
  {
    hide LookedIn, Moved, CanMove;
    MoveLooks(DefFor(w, s, t), s.claims[t], m, s.clock);
    assert TxFrom(s.claims[t], past);
  }

  lemma ExecLooks(c: ClaimedRun, t: Token, run: Run, clock: Time, x: Exec)
    requires CanExecute(c, x, clock)
    ensures var d := Executed(c, t, run, clock, x).claim; d.tx == c.tx || d.tx.None?
  {
  }

  lemma ServerLooks(s: Sys, t: Token, x: Exec, past: seq<Sys>)
    requires t in s.claims && s.claims[t].run in s.runs && CanExecute(s.claims[t], x, s.clock) && LooksFrom(s, past)
    ensures LooksFrom(DoServer(s, t, x), past)
  {
    ExecLooks(s.claims[t], t, s.runs[s.claims[t].run], s.clock, x);
    assert TxFrom(s.claims[t], past);
    hide LookedIn, Executed, Fence;
    if x.WaitSettle? && s.claims[t].run in s.history {
      assert NotesFrom(Noted(s.history[s.claims[t].run], s.claims[t].tx.value), past);
    }
  }

  lemma WaitingLooks(w: World, s: Sys, t: Token, m: TxMove, past: seq<Sys>)
    requires t in s.claims && CanTxMove(w, s, t, m) && LooksFrom(s, past) && LookedIn(past, LookOf(s))
    ensures LooksFrom(DoTxMove(w, s, t, m), past)
  {
    hide LookedIn, LatestEvent, LockFree;
  }

  lemma EmitLooks(w: World, s: Sys, x: nat, past: seq<Sys>)
    requires x in s.emits && LooksFrom(s, past)
    ensures LooksFrom(DoEmit(w, s, x), past)
  {
    hide LookedIn, Awaits, Wake;
  }

  lemma PromoteLooks(s: Sys, picked: set<RunId>, now: Time, statement: Time, past: seq<Sys>)
    requires picked <= s.runs.Keys && LooksFrom(s, past)
    ensures LooksFrom(DoPromote(s, picked, now, statement), past)
  {
    hide LookedIn, TimeOut;
  }

  lemma ClaimLooks(w: World, s: Sys, r: RunId, t: Token, started: Time, past: seq<Sys>)
    requires r in s.runs && s.runs[r].workflow in w.defs && LooksFrom(s, past)
    ensures LooksFrom(DoClaim(w, s, r, t, started), past)
  {
    hide LookedIn, Claim, ValuesOf;
  }

  lemma RenewLooks(w: World, s: Sys, tokens: set<Token>, at: Time, past: seq<Sys>)
    requires tokens <= s.claims.Keys && LooksFrom(s, past)
    ensures LooksFrom(DoRenew(w, s, tokens, at), past)
  {
    hide LookedIn, Confirmed, RenewAll;
  }

  lemma EnqueueLooks(s: Sys, l: Label, past: seq<Sys>)
    requires l.Enqueue? && LooksFrom(s, past)
    ensures LooksFrom(DoEnqueue(s, l), past)
  {
    hide LookedIn, Duplicate;
  }

  lemma LooksStep(w: World, s: Sys, l: Label, past: seq<Sys>)
    requires Enabled(w, s, l) && LooksFrom(s, past) && LookedIn(past, LookOf(s))
    ensures LooksFrom(Apply(w, s, l), past)
  {
    hide LookedIn, TxFrom, NotesFrom, CanTxMove, CanExecute, DoServer, DoTxMove, DoEmit, DoPromote, DoClaim, DoRenew, DoEnqueue, DoRecover,
      CanEmitMove, Moved, CanMove, Claimable, Overdue, Expired;
    match l {
      case Local(t, m) => LocalLooks(w, s, t, m, past);
      case Server(t, x) => ServerLooks(s, t, x, past);
      case Waiting(t, m) => WaitingLooks(w, s, t, m, past);
      case EmitCommit(x) => EmitLooks(w, s, x, past);
      case PromoteTimedOut(picked, now, statement) => PromoteLooks(s, picked, now, statement, past);
      case ClaimRun(r, t, started, _, _) => ClaimLooks(w, s, r, t, started, past);
      case RenewLeases(tokens, passAt) => RenewLooks(w, s, tokens, passAt, past);
      case Enqueue(_, _, _, _, _, _, _, _) => EnqueueLooks(s, l, past);
      case RecoverLeases(picked, _) => RecoverFrame(s, picked);
      case _ =>
    }
  }

  lemma RecoverFrame(s: Sys, picked: set<RunId>)
    ensures DoRecover(s, picked).claims == s.claims && DoRecover(s, picked).history == s.history
  {
  }

  lemma {:induction false} LooksArePast(w: World, states: seq<Sys>, labels: seq<Label>, i: nat)
    requires IsTrace(w, states, labels) && i <= |labels|
    ensures LooksFrom(states[i], states[..i])
  {
    hide Enabled, Apply;
    assert |states| == |labels| + 1;
    if i == 0 {
      assert states[0].claims == map[] && states[0].history == map[];
    } else {
      LooksArePast(w, states, labels, i - 1);
      var past := states[..i - 1] + [states[i - 1]];
      assert past == states[..i];
      LooksLater(states[i - 1], states[..i - 1], states[i - 1]);
      assert past[i - 1] == states[i - 1];
      LooksStep(w, states[i - 1], labels[i - 1], past);
    }
  }

  /** The state in which a wait that timed out had looked its key up. */
  lemma TimeoutLook(w: World, states: seq<Sys>, labels: seq<Label>, i: nat, r: RunId, p: nat) returns (j: nat)
    requires IsTrace(w, states, labels) && i <= |labels| && r in states[i].history && p in states[i].history[r].timeouts
    ensures j < i && states[i].history[r].timeouts[p].registration.look == LookOf(states[j])
    ensures forall e :: e in states[i].history[r].timeouts[p].registration.look.pruned <==> PrunedBy(labels, j, e)
  {
    hide Enabled, Apply;
    assert |states| == |labels| + 1;
    LooksArePast(w, states, labels, i);
    hide IsTrace, PrunedBy;
    assert NotesFrom(states[i].history[r], states[..i]);
    j :| 0 <= j < i && states[i].history[r].timeouts[p].registration.look == LookOf(states[..i][j]);
    forall e ensures e in states[j].pruned <==> PrunedBy(labels, j, e) {
      PrunedByAStatement(w, states, labels, j, e);
    }
  }
}
