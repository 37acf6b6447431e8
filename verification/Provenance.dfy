/** Where a claim's local state and an event come from: deadlines from the last confirmation, error texts from what
    failed, wait transactions from the moment they were opened, events from the emitting calls. */
module Provenance {
  import opened Basics
  import opened Workflow
  import opened Rows
  import opened Tables
  import opened Worker
  import opened Protocol
  import opened Occurrences

  /* ---- what a step does to a claim ---- */

  /** A heartbeat statement sends the token and its row answers. */
  predicate Confirms(s: Sys, l: Label, t: Token) {
    l.RenewLeases? && t in l.tokens && Holding(s, t)
  }

  /** The step makes the claim fail with this error. */
  predicate FailsWith(l: Label, t: Token, error: string) {
    || l == Local(t, UserCodeFails(error))
    || l == Local(t, GiveUp(error))
    || (l == Label.Waiting(t, WaitRollback) && error == "rolled back")
  }

  /** The same wait transaction, further on perhaps. */
  predicate SameWait(a: WaitTx, b: WaitTx) {
    b == a.(phase := b.phase)
  }

  /** A claim before and after a step. */
  ghost predicate ClaimGoes(w: World, s: Sys, l: Label, t: Token, c: ClaimedRun, after: ClaimedRun) {
    && after.run == c.run && after.attempt == c.attempt && after.input == c.input
    && (if l == Local(t, AckRenewal) then c.confirm.Some? && after.deadline == c.confirm.value && after.confirm.None?
        else after.deadline == c.deadline && after.confirm == if Confirms(s, l, t) then Some(l.passAt + w.ttl) else c.confirm)
    && (after.phase.Failing? ==> after.phase == c.phase || FailsWith(l, t, after.phase.error))
    && (after.fail.Some? ==> after.fail == c.fail || (c.phase.Failing? && after.fail == Some(c.phase.error)))
    && (after.tx.Some? ==>
          || (c.tx.Some? && SameWait(c.tx.value, after.tx.value))
          || (l == Local(t, OpenWait) && after.tx.value.begin == s.clock))
  }

  /** A claim as its claiming step makes it. */
  predicate ClaimStarts(w: World, l: Label, t: Token, c: ClaimedRun) {
    && l.ClaimRun? && l.token == t && c.run == l.id && c.deadline == l.started + w.ttl
    && c.confirm.None? && c.fail.None? && c.tx.None? && !c.phase.Failing?
  }

  lemma LocalGoes(w: World, s: Sys, t: Token, m: Move)
    requires Enabled(w, s, Local(t, m))
    ensures ClaimGoes(w, s, Local(t, m), t, s.claims[t], Moved(DefFor(w, s, t), s.claims[t], m, s.clock))
  {
    hide ContextFrom, Resolve;
  }

  lemma WaitingGoes(w: World, s: Sys, t: Token, m: TxMove)
    requires Enabled(w, s, Label.Waiting(t, m))
    ensures DoTxMove(w, s, t, m).claims.Keys == s.claims.Keys
    ensures forall u :: u in s.claims ==> ClaimGoes(w, s, Label.Waiting(t, m), u, s.claims[u], DoTxMove(w, s, t, m).claims[u])
  {
    hide LockFree, LatestEvent;
  }

  lemma ServedGoes(w: World, s: Sys, t: Token, x: Exec)
    requires Enabled(w, s, Server(t, x))
    ensures ClaimGoes(w, s, Server(t, x), t, s.claims[t], Executed(s.claims[t], t, s.runs[s.claims[t].run], s.clock, x).claim)
  {
    hide CommitStep, ParkSleep, ParkWait, CompleteRun, FailOrRetry;
  }

  lemma SameGoes(w: World, s: Sys, l: Label, t: Token, c: ClaimedRun)
    requires l != Local(t, AckRenewal) && !Confirms(s, l, t)
    ensures ClaimGoes(w, s, l, t, c, c)
  {
  }

  lemma RenewalGoes(w: World, s: Sys, tokens: set<Token>, at: Time, t: Token)
    requires Enabled(w, s, RenewLeases(tokens, at)) && t in s.claims
    ensures t in DoRenew(w, s, tokens, at).claims && ClaimGoes(w, s, RenewLeases(tokens, at), t, s.claims[t], DoRenew(w, s, tokens, at).claims[t])
  {
    hide RenewAll;
  }

  lemma OthersGo(w: World, s: Sys, l: Label, t: Token)
    requires Enabled(w, s, l) && t in s.claims && !l.Local? && !l.Waiting? && !l.Server? && !l.RenewLeases?
    ensures t in Apply(w, s, l).claims && Apply(w, s, l).claims[t] == s.claims[t]
  {
    hide CanEmitMove, WakeAll, TimeOutAll, RecoverAll, Claim, Start, NoteWake, NoteTimeout, Inserts, Cancel;
  }

  lemma ClaimStepGoes(w: World, s: Sys, l: Label, t: Token)
    requires Enabled(w, s, l) && t in s.claims
    ensures t in Apply(w, s, l).claims && ClaimGoes(w, s, l, t, s.claims[t], Apply(w, s, l).claims[t])
  {
    hide ClaimGoes, CanTxMove, DoTxMove, CanExecute, Executed, CanMove, Moved, Registered, Inserts, DoRenew, DoEmit, DoPromote, DoRecover, DoClaim, DoEnqueue, CanEmitMove;
    match l {
      case Local(u, m) =>
        if u == t {
          LocalGoes(w, s, t, m);
        } else {
          SameGoes(w, s, l, t, s.claims[t]);
        }
      case Waiting(u, m) => WaitingGoes(w, s, u, m);
      case Server(u, x) =>
        if u == t {
          ServedGoes(w, s, t, x);
        } else {
          SameGoes(w, s, l, t, s.claims[t]);
        }
      case RenewLeases(tokens, at) => RenewalGoes(w, s, tokens, at, t);
      case _ =>
        OthersGo(w, s, l, t);
        SameGoes(w, s, l, t, s.claims[t]);
    }
  }

  lemma NewClaimStarts(w: World, s: Sys, l: Label, t: Token)
    requires Enabled(w, s, l) && t !in s.claims
    ensures t in Apply(w, s, l).claims <==> l.ClaimRun? && l.token == t
    ensures t in Apply(w, s, l).claims ==> ClaimStarts(w, l, t, Apply(w, s, l).claims[t])
  {
    hide Moved, CanMove, CanTxMove, DoTxMove, CanExecute, Executed, CanEmitMove, WakeAll, TimeOutAll, RecoverAll, RenewAll, NoteWake, NoteTimeout,
         Inserts, Cancel, Registered, ValuesOf;
    if l.Waiting? {
      WaitingGoes(w, s, l.token, l.txMove);
    }
  }

  /* ---- along a trace ---- */

  lemma ClaimAlong(w: World, states: seq<Sys>, labels: seq<Label>, i: nat, t: Token)
    requires IsTrace(w, states, labels) && i < |labels|
    ensures t in states[i].claims ==> t in states[i + 1].claims && ClaimGoes(w, states[i], labels[i], t, states[i].claims[t], states[i + 1].claims[t])
    ensures t !in states[i].claims && t in states[i + 1].claims ==> ClaimStarts(w, labels[i], t, states[i + 1].claims[t])
    ensures t !in states[i].claims && labels[i].ClaimRun? && labels[i].token == t ==> t in states[i + 1].claims
  {
    hide Enabled, Apply, ClaimGoes, ClaimStarts;
    assert Enabled(w, states[i], labels[i]) && states[i + 1] == Apply(w, states[i], labels[i]);
    if t in states[i].claims {
      ClaimStepGoes(w, states[i], labels[i], t);
    } else {
      NewClaimStarts(w, states[i], labels[i], t);
    }
  }

  /** The lease length after the pass that last confirmed the claim, when the heartbeat has not taken note yet. */
  function PendingDeadline(w: World, states: seq<Sys>, labels: seq<Label>, i: nat, t: Token): Option<Time>
    requires i <= |labels| < |states|
  {
    if i == 0 then None
    else
      var s, l := states[i - 1], labels[i - 1];
      if l == Local(t, AckRenewal) then None
      else if Confirms(s, l, t) then Some(l.passAt + w.ttl)
      else PendingDeadline(w, states, labels, i - 1, t)
  }

  /** The lease length after the start of the claim, or after the last pass whose confirmation was noted. */
  function NotedDeadline(w: World, states: seq<Sys>, labels: seq<Label>, i: nat, t: Token): Option<Time>
    requires i <= |labels| < |states|
  {
    if i == 0 then None
    else
      var s, l := states[i - 1], labels[i - 1];
      if l.ClaimRun? && l.token == t && t !in s.claims then Some(l.started + w.ttl)
      else if l == Local(t, AckRenewal) then PendingDeadline(w, states, labels, i - 1, t)
      else NotedDeadline(w, states, labels, i - 1, t)
  }

  /** A claim's local deadline is always the last one the database confirmed to it. */
  lemma {:induction false} DeadlineIsLastConfirmed(w: World, states: seq<Sys>, labels: seq<Label>, i: nat, t: Token)
    requires IsTrace(w, states, labels) && i <= |labels|
    ensures t in states[i].claims ==> Some(states[i].claims[t].deadline) == NotedDeadline(w, states, labels, i, t)
    ensures t in states[i].claims ==> states[i].claims[t].confirm == PendingDeadline(w, states, labels, i, t)
    ensures t !in states[i].claims ==> PendingDeadline(w, states, labels, i, t).None? && NotedDeadline(w, states, labels, i, t).None?
  {
    hide Enabled, Apply;
    assert |states| == |labels| + 1;
    if i == 0 {
    } else {
      assert Enabled(w, states[i - 1], labels[i - 1]);
      ClaimAlong(w, states, labels, i - 1, t);
      DeadlineIsLastConfirmed(w, states, labels, i - 1, t);
      hide IsTrace;
      if t !in states[i - 1].claims {
        NotYetClaimed(w, states[i - 1], labels[i - 1], t);
      }
    }
  }

  lemma NotYetClaimed(w: World, s: Sys, l: Label, t: Token)
    requires Enabled(w, s, l) && t !in s.claims
    ensures l != Local(t, AckRenewal) && !Confirms(s, l, t)
  {
    hide CanMove, CanTxMove, CanExecute, CanEmitMove;
  }

  /** Whatever error a claim reports is one that a step of it, or the loss of its transaction, raised. */
  lemma {:induction false} ErrorsAreRaised(w: World, states: seq<Sys>, labels: seq<Label>, i: nat, t: Token) returns (k: nat)
    requires IsTrace(w, states, labels) && i <= |labels| && t in states[i].claims
    requires states[i].claims[t].phase.Failing? || states[i].claims[t].fail.Some?
    ensures k < i
    ensures FailsWith(labels[k], t, if states[i].claims[t].fail.Some? then states[i].claims[t].fail.value else states[i].claims[t].phase.error)
  {
    hide Enabled, Apply;
    assert |states| == |labels| + 1 && states[0].claims == map[];
    ClaimAlong(w, states, labels, i - 1, t);
    hide IsTrace;
    var c := states[i].claims[t];
    if t in states[i - 1].claims {
      var before := states[i - 1].claims[t];
      if c.fail.Some? {
        if c.fail == before.fail || before.fail.None? {
          k := ErrorsAreRaised(w, states, labels, i - 1, t);
        } else {
          k := RaisedBy(w, states, labels, i - 1, t);
        }
      } else if c.phase == before.phase {
        k := RaisedBy(w, states, labels, i - 1, t);
      } else {
        k := i - 1;
      }
    }
  }

  /** The error a claim is failing with. */
  lemma {:induction false} RaisedBy(w: World, states: seq<Sys>, labels: seq<Label>, i: nat, t: Token) returns (k: nat)
    requires IsTrace(w, states, labels) && i <= |labels| && t in states[i].claims && states[i].claims[t].phase.Failing?
    ensures k < i && FailsWith(labels[k], t, states[i].claims[t].phase.error)
  {
    hide Enabled, Apply;
    assert |states| == |labels| + 1 && states[0].claims == map[];
    ClaimAlong(w, states, labels, i - 1, t);
    hide IsTrace;
    if t in states[i - 1].claims && states[i - 1].claims[t].phase == states[i].claims[t].phase {
      k := RaisedBy(w, states, labels, i - 1, t);
    } else {
      k := i - 1;
    }
  }

  /** A wait transaction began when the claim opened it. */
  lemma {:induction false} WaitsBeginWhenOpened(w: World, states: seq<Sys>, labels: seq<Label>, i: nat, t: Token) returns (k: nat)
    requires IsTrace(w, states, labels) && i <= |labels| && t in states[i].claims && states[i].claims[t].tx.Some?
    ensures k < i && labels[k] == Local(t, OpenWait) && states[i].claims[t].tx.value.begin == states[k].clock
  {
    hide Enabled, Apply;
    assert |states| == |labels| + 1 && states[0].claims == map[];
    ClaimAlong(w, states, labels, i - 1, t);
    hide IsTrace;
    if t in states[i - 1].claims && states[i - 1].claims[t].tx.Some? && SameWait(states[i - 1].claims[t].tx.value, states[i].claims[t].tx.value) {
      k := WaitsBeginWhenOpened(w, states, labels, i - 1, t);
    } else {
      k := i - 1;
    }
  }

  /* ---- events ---- */

  /** The event the transaction commits. */
  predicate Emits(w: World, s: Sys, l: Label, e: Event) {
    && l.EmitCommit? && l.tx in s.emits && e.id == |s.emitted| && e.key == s.emits[l.tx].key && e.payload == s.emits[l.tx].payload
    && e.created == s.emits[l.tx].begin && e.expires == s.emits[l.tx].begin + Millis(w.eventTtl)
  }

  ghost predicate EventsGo(w: World, s: Sys, l: Label, s': Sys) {
    && (s.nextEvent == |s.emitted| ==> s'.nextEvent == |s'.emitted|)
    && (s'.emitted == s.emitted || (s.nextEvent == |s.emitted| ==> exists e :: Emits(w, s, l, e) && s'.emitted == s.emitted + [e]))
    && (l.EmitCommit? ==> s'.emitted != s.emitted)
    && (forall x :: x in s'.emits ==>
          || (x in s.emits && s'.emits[x] == s.emits[x].(locked := s'.emits[x].locked))
          || (l == Emitting(x, EmitBegin(s'.emits[x].key, s'.emits[x].payload)) && s'.emits[x].begin == s.clock))
  }

  lemma CommitGoes(w: World, s: Sys, x: nat)
    requires Enabled(w, s, EmitCommit(x))
    ensures EventsGo(w, s, EmitCommit(x), DoEmit(w, s, x))
  {
    hide WakeAll, NoteWake;
    var tx := s.emits[x];
    var e := Event(s.nextEvent, tx.key, tx.payload, tx.begin, tx.begin + WholeMillis(w.eventTtl));
    assert DoEmit(w, s, x).emitted == s.emitted + [e];
    assert s.nextEvent == |s.emitted| ==> Emits(w, s, EmitCommit(x), e);
  }

  lemma EmittingGoes(w: World, s: Sys, x: nat, m: EmitMove)
    requires Enabled(w, s, Emitting(x, m))
    ensures EventsGo(w, s, Emitting(x, m), DoEmitMove(w, s, x, m))
  {
    hide LockFree;
  }

  lemma OtherEvents(w: World, s: Sys, l: Label)
    requires Enabled(w, s, l) && !l.Emitting? && !l.EmitCommit? && !l.Waiting?
    ensures var s' := Apply(w, s, l); s'.emitted == s.emitted && s'.emits == s.emits && s'.nextEvent == s.nextEvent
  {
    hide Moved, CanMove, CanExecute, Executed, TimeOutAll, RecoverAll, RenewAll, NoteTimeout, Inserts, Cancel, Registered, Claim, Start, Confirmed;
  }

  lemma EventStepGoes(w: World, s: Sys, l: Label)
    requires Enabled(w, s, l)
    ensures EventsGo(w, s, l, Apply(w, s, l))
  {
    hide DoEmit, DoEmitMove, DoTxMove, CanTxMove, CanEmitMove, CanMove, CanExecute, Moved, DoServer, DoRenew, DoPromote, DoRecover, DoClaim, DoEnqueue;
    match l {
      case EmitCommit(x) => CommitGoes(w, s, x);
      case Emitting(x, m) => EmittingGoes(w, s, x, m);
      case Waiting(t, m) => WaitingEmitsNothing(w, s, t, m);
      case _ => OtherEvents(w, s, l);
    }
  }

  lemma WaitingEmitsNothing(w: World, s: Sys, t: Token, m: TxMove)
    requires t in s.claims && CanTxMove(w, s, t, m)
    ensures var s' := DoTxMove(w, s, t, m); s'.emitted == s.emitted && s'.emits == s.emits && s'.nextEvent == s.nextEvent
  {
    hide LockFree, LatestEvent;
  }

  lemma EventsAlong(w: World, states: seq<Sys>, labels: seq<Label>, i: nat)
    requires IsTrace(w, states, labels) && i < |labels|
    ensures EventsGo(w, states[i], labels[i], states[i + 1])
  {
    hide Enabled, Apply, EventsGo;
    assert Enabled(w, states[i], labels[i]) && states[i + 1] == Apply(w, states[i], labels[i]);
    EventStepGoes(w, states[i], labels[i]);
  }

  lemma {:induction false} IdsCount(w: World, states: seq<Sys>, labels: seq<Label>, i: nat)
    requires IsTrace(w, states, labels) && i <= |labels|
    ensures states[i].nextEvent == |states[i].emitted|
  {
    hide Enabled, Apply;
    if i == 0 {
    } else {
      IdsCount(w, states, labels, i - 1);
      EventsAlong(w, states, labels, i - 1);
    }
  }

  lemma {:induction false} EmitterBegan(w: World, states: seq<Sys>, labels: seq<Label>, i: nat, x: nat) returns (b: nat)
    requires IsTrace(w, states, labels) && i <= |labels| && x in states[i].emits
    ensures b < i && labels[b] == Emitting(x, EmitBegin(states[i].emits[x].key, states[i].emits[x].payload))
    ensures states[i].emits[x].begin == states[b].clock
  {
    hide Enabled, Apply;
    assert |states| == |labels| + 1 && states[0].emits == map[];
    EventsAlong(w, states, labels, i - 1);
    hide IsTrace;
    if x in states[i - 1].emits && states[i].emits[x] == states[i - 1].emits[x].(locked := states[i].emits[x].locked) {
      b := EmitterBegan(w, states, labels, i - 1, x);
    } else {
      b := i - 1;
    }
  }

  /** The n-th committed event is numbered n, has the key and payload its emitter was called with, was created when that
      transaction began, and expires a lifetime in whole milliseconds later. */
  lemma {:induction false} EmittedAsSent(w: World, states: seq<Sys>, labels: seq<Label>, i: nat, n: nat) returns (b: nat, k: nat)
    requires IsTrace(w, states, labels) && i <= |labels| && n < |states[i].emitted|
    ensures b < k < i && labels[k].EmitCommit? && |states[k].emitted| == n
    ensures var e := states[i].emitted[n];
            && labels[b] == Emitting(labels[k].tx, EmitBegin(e.key, e.payload))
            && e.id == n && e.created == states[b].clock && e.expires == e.created + w.eventTtl / 1_000_000 * 1_000_000
  {
    hide Enabled, Apply;
    assert |states| == |labels| + 1 && states[0].emitted == [];
    EventsAlong(w, states, labels, i - 1);
    IdsCount(w, states, labels, i - 1);
    if n < |states[i - 1].emitted| {
      hide IsTrace;
      b, k := EmittedAsSent(w, states, labels, i - 1, n);
    } else {
      k := i - 1;
      b := EmitterBegan(w, states, labels, k, labels[k].tx);
    }
  }
}
