/** Every step keeps the event invariant. */
module EventSteps {
  import opened Basics
  import opened Workflow
  import opened Rows
  import opened Tables
  import opened RunInvariant
  import opened Worker
  import opened ClaimInvariant
  import opened Protocol
  import opened CoreInvariant
  import opened EventInvariant

  ghost predicate EventsOk(w: World, s: Sys) {
    LocksOk(w, s.claims, s.emits) && LogOk(s) && TxsOk(s) && EventRows(w, s)
  }

  /** Whoever holds a lock afterwards held it before. */
  lemma FewerHolders(w: World, s: Sys, s': Sys)
    requires LocksOk(w, s.claims, s.emits)
    requires forall o, k :: Holds(w, s'.claims, s'.emits, o, k) ==> Holds(w, s.claims, s.emits, o, k)
    ensures LocksOk(w, s'.claims, s'.emits)
  {
    hide Holds;
  }

  /** One owner acquired a lock nobody held. */
  lemma NewHolder(w: World, s: Sys, s': Sys, owner: Owner, lock: int)
    requires LocksOk(w, s.claims, s.emits) && LockFree(w, s, lock)
    requires forall o, k :: Holds(w, s'.claims, s'.emits, o, k) ==> Holds(w, s.claims, s.emits, o, k) || (o == owner && k == lock)
    ensures LocksOk(w, s'.claims, s'.emits)
  {
    hide Holds;
  }

  lemma TxLater(tx: WaitTx, log: set<Event>, log': set<Event>, emitted: seq<Event>, clock: Time, clock': Time)
    requires TxAt(tx, log, emitted, clock) && log' <= log && clock <= clock'
    ensures TxAt(tx, log', emitted, clock')
  {
  }

  lemma TickEvents(w: World, s: Sys, to: Time)
    requires CoreOk(w, s.runs, s.claims) && EventsOk(w, s) && s.clock <= to
    ensures EventsOk(w, s.(clock := to))
  {
    hide EventRow, RowOk, ClaimAt, TokenAt, TxAt;
    forall t | t in s.claims && s.claims[t].tx.Some? ensures TxAt(s.claims[t].tx.value, s.log, s.emitted, to) {
      TxLater(s.claims[t].tx.value, s.log, s.log, s.emitted, s.clock, to);
    }
    forall r | r in s.runs
      ensures EventRow(w, r, s.runs[r], s.history[r], s.log, s.emitted, to)
    {
      RowLater(w, r, s.runs[r], s.history[r], s.log, s.log, s.emitted, s.clock, to);
    }
  }

  lemma PruneEvents(w: World, s: Sys, events: set<Event>, statement: Time)
    requires CoreOk(w, s.runs, s.claims) && EventsOk(w, s) && statement <= s.clock
    requires events <= s.log && forall e :: e in events ==> e.expires <= statement
    ensures EventsOk(w, s.(log := s.log - events, pruned := s.pruned + events))
  {
    hide EventRow, RowOk, ClaimAt, TokenAt, TxAt;
    var s' := s.(log := s.log - events, pruned := s.pruned + events);
    forall t | t in s.claims && s.claims[t].tx.Some? ensures TxAt(s.claims[t].tx.value, s'.log, s.emitted, s.clock) {
      TxLater(s.claims[t].tx.value, s.log, s'.log, s.emitted, s.clock, s.clock);
    }
    forall r | r in s.runs
      ensures EventRow(w, r, s.runs[r], s.history[r], s'.log, s.emitted, s.clock)
    {
      RowLater(w, r, s.runs[r], s.history[r], s.log, s'.log, s.emitted, s.clock, s.clock);
    }
  }

  lemma EmittingEvents(w: World, s: Sys, x: nat, m: EmitMove)
    requires EventsOk(w, s) && CanEmitMove(w, s, x, m)
    ensures EventsOk(w, DoEmitMove(w, s, x, m))
  {
    hide EventRow;
    var s' := DoEmitMove(w, s, x, m);
    if m.EmitLock? {
      NewHolder(w, s, s', Emitter(x), w.lock(s.emits[x].key));
    } else {
      FewerHolders(w, s, s');
    }
  }

  lemma LocalEvents(w: World, s: Sys, t: Token, m: Move)
    requires EventsOk(w, s) && HasDef(w, s, t) && CanMove(DefFor(w, s, t), s.claims[t], m)
    ensures EventsOk(w, WithClaim(s, t, Moved(DefFor(w, s, t), s.claims[t], m, s.clock)))
  {
    hide EventRow, Moved, CanMove;
    var d := Moved(DefFor(w, s, t), s.claims[t], m, s.clock);
    MovedTx(DefFor(w, s, t), s.claims[t], m, s.clock);
    FewerHolders(w, s, WithClaim(s, t, d));
  }

  lemma MovedTx(def: Definition, c: ClaimedRun, m: Move, clock: Time)
    requires CanMove(def, c, m)
    ensures var tx := Moved(def, c, m, clock).tx; tx == c.tx || (tx.Some? && tx.value.phase.Begun? && tx.value.begin == clock)
  {
  }

  /** What the lookup under the lock establishes. */
  lemma LookupOk(s: Sys, tx: WaitTx, found: Option<Event>)
    requires LogOk(s) && TxAt(tx, s.log, s.emitted, s.clock)
    requires LatestEvent(s.log, tx.key, tx.begin, found)
    ensures var look := Look(s.clock, |s.emitted|, s.pruned);
            TxAt(tx.(phase := if found.Some? then Found(found.value, look) else Empty(look)), s.log, s.emitted, s.clock)
  {
    assert s.emitted[..|s.emitted|] == s.emitted;
  }

  lemma WaitingEvents(w: World, s: Sys, t: Token, m: TxMove)
    requires EventsOk(w, s) && t in s.claims && CanTxMove(w, s, t, m)
    ensures EventsOk(w, DoTxMove(w, s, t, m))
  {
    hide EventRow, TxAt;
    var s' := DoTxMove(w, s, t, m);
    match m {
      case WaitLock =>
        LockedOk(s, s.claims[t].tx.value);
        NewHolder(w, s, s', Waiter(t), w.lock(s.claims[t].tx.value.key));
      case WaitLookup(found) =>
        LookupOk(s, s.claims[t].tx.value, found);
        FewerHolders(w, s, s');
      case WaitRollback =>
        FewerHolders(w, s, s');
    }
  }

  lemma LockedOk(s: Sys, tx: WaitTx)
    requires TxAt(tx, s.log, s.emitted, s.clock)
    ensures TxAt(tx.(phase := Locked), s.log, s.emitted, s.clock)
  {
  }

  predicate SameNotes(h: History, h': History) {
    h'.registrations == h.registrations && h'.timeouts == h.timeouts && h'.deliveries == h.deliveries
  }

  /** Rows changed, each keeping its outcomes and registering nothing. */
  lemma RowsKept(w: World, s: Sys, s': Sys)
    requires CoreOk(w, s.runs, s.claims) && RowsStep(w, s, s') && EventRows(w, s)
    requires s'.log == s.log && s'.emitted == s.emitted && s'.clock == s.clock && s'.runs.Keys == s.runs.Keys
    requires forall r :: r in s.history ==> r in s'.history && SameNotes(s.history[r], s'.history[r])
    requires forall r :: r in s.runs ==> s'.runs[r].checkpoints == s.runs[r].checkpoints && (s'.runs[r].state.Waiting? ==> s'.runs[r] == s.runs[r])
    ensures EventRows(w, s')
  {
    hide RunOk, EventRow;
    forall r | r in s'.runs
      ensures r in s'.history && EventRow(w, r, s'.runs[r], s'.history[r], s'.log, s'.emitted, s'.clock)
    {
      assert RowStep(w, s.claims, r, s.runs[r], s'.runs[r]) && RowOk(w, r, s.runs[r]);
      RowKept(w, r, s.runs[r], s'.runs[r], s.history[r], s'.history[r], s.log, s.emitted, s.clock);
    }
  }

  /** Claim, renewal, recovery and cancellation change neither transactions nor outcomes. */
  lemma KeptEvents(w: World, s: Sys, s': Sys)
    requires CoreOk(w, s.runs, s.claims) && RowsStep(w, s, s') && EventsOk(w, s)
    requires s'.log == s.log && s'.nextEvent == s.nextEvent && s'.emitted == s.emitted && s'.pruned == s.pruned
    requires s'.clock == s.clock && s'.emits == s.emits
    requires s'.runs.Keys == s.runs.Keys
    requires forall r :: r in s.history ==> r in s'.history && SameNotes(s.history[r], s'.history[r])
    requires forall r :: r in s.runs ==> s'.runs[r].checkpoints == s.runs[r].checkpoints && (s'.runs[r].state.Waiting? ==> s'.runs[r] == s.runs[r])
    requires forall t :: t in s'.claims ==> if t in s.claims then s'.claims[t].tx == s.claims[t].tx else s'.claims[t].tx.None?
    ensures EventsOk(w, s')
  {
    hide EventRow, RowStep, RowOk, CoreOk;
    FewerHolders(w, s, s');
    RowsKept(w, s, s');
  }

  lemma EnqueueEvents(w: World, s: Sys, l: Label)
    requires EventsOk(w, s) && l.Enqueue? && l.workflow in w.defs
    ensures EventsOk(w, DoEnqueue(s, l))
  {
    hide Duplicate, LocksOk, TxAt, WaitAt, OutcomesAt;
    var s' := DoEnqueue(s, l);
    if Inserts(s, l) {
      assert WaitAt(w.defs[l.workflow], l.id, s'.runs[l.id], s'.history[l.id], s.log, s.emitted, s.clock)
        && OutcomesAt(w.defs[l.workflow], l.id, s'.runs[l.id], s'.history[l.id], s.emitted, s.clock) by {
        FreshRow(w.defs[l.workflow], l.id, s'.runs[l.id], s'.history[l.id], s.log, s.emitted, s.clock);
      }
      assert EventRow(w, l.id, s'.runs[l.id], s'.history[l.id], s.log, s.emitted, s.clock);
      hide EventRow;
    }
  }

  lemma FreshRow(def: Definition, r: RunId, run: Run, h: History, log: set<Event>, emitted: seq<Event>, clock: Time)
    requires run.state.Ready? && run.checkpoints == map[]
    ensures WaitAt(def, r, run, h, log, emitted, clock) && OutcomesAt(def, r, run, h, emitted, clock)
  {
  }

  /* ---- executed statements ---- */

  /** A statement of the drive loop or a failure records at most a step's result. */
  lemma DriveRow(def: Definition, t: Token, c: ClaimedRun, run: Run, clock: Time, x: Exec)
    requires ClaimOk(def, t, c, run) && CanExecute(c, x, clock) && !x.WaitSettle?
    ensures var after := Executed(c, t, run, clock, x).run;
            && (after.state.Waiting? ==> after == run)
            && (forall p :: p in after.checkpoints && p !in run.checkpoints ==> p < |def.ops| && def.ops[p].Step?)
            && Executed(c, t, run, clock, x).claim.tx == c.tx
  {
    hide PhaseOk, Frontier, MayRecord;
  }

  lemma DriveEvents(w: World, s: Sys, s': Sys, t: Token, x: Exec)
    requires CoreOk(w, s.runs, s.claims) && EventsOk(w, s)
    requires t in s.claims && s.claims[t].run in s.runs && CanExecute(s.claims[t], x, s.clock) && !x.WaitSettle?
    requires s' == DoServer(s, t, x) && RowsStep(w, s, s')
    ensures EventsOk(w, s')
  {
    hide CoreOk, RowsStep, EventRow, CanExecute, Executed, TxAt;
    DroveRow(w, s, s', t, x);
    FewerHolders(w, s, s');
  }

  lemma DroveRow(w: World, s: Sys, s': Sys, t: Token, x: Exec)
    requires CoreOk(w, s.runs, s.claims) && EventRows(w, s)
    requires t in s.claims && s.claims[t].run in s.runs && CanExecute(s.claims[t], x, s.clock) && !x.WaitSettle?
    requires s' == DoServer(s, t, x) && RowsStep(w, s, s')
    ensures var r := s.claims[t].run;
            r in s.history && EventRow(w, r, s'.runs[r], s.history[r], s.log, s.emitted, s.clock) && s'.claims[t].tx == s.claims[t].tx
  {
    hide RunOk, EventRow, CanExecute, Executed, Evolves, ClaimOk;
    var r := s.claims[t].run;
    assert ClaimAt(w, s.runs, t, s.claims[t]) && RowOk(w, r, s.runs[r]) && RowStep(w, s.claims, r, s.runs[r], s'.runs[r]);
    DriveRow(w.defs[s.runs[r].workflow], t, s.claims[t], s.runs[r], s.clock, x);
    EvolvesKeeps(w.defs[s.runs[r].workflow], s.runs[r], s'.runs[r]);
    RowKept(w, r, s.runs[r], s'.runs[r], s.history[r], s.history[r], s.log, s.emitted, s.clock);
  }

  lemma EvolvesKeeps(def: Definition, run: Run, after: Run)
    requires Evolves(def, run, after)
    ensures SameIdentity(run, after) && Keeps(run.checkpoints, after.checkpoints)
  {
  }

  /** The row after a wait transaction settled. */
  lemma SettledRow(w: World, s: Sys, s': Sys, t: Token)
    requires CoreOk(w, s.runs, s.claims) && EventRows(w, s) && t in s.claims && CanSettle(s.claims[t])
    requires s.claims[t].run in s.runs && TxAt(s.claims[t].tx.value, s.log, s.emitted, s.clock)
    requires s' == DoServer(s, t, WaitSettle) && RowsStep(w, s, s')
    ensures var r := s.claims[t].run;
            r in s'.history && EventRow(w, r, s'.runs[r], s'.history[r], s.log, s.emitted, s.clock)
  {
    hide RunOk, EventRow, Evolves, ClaimOk, TxAt;
    var c := s.claims[t];
    var r := c.run;
    assert ClaimAt(w, s.runs, t, c) && RowOk(w, r, s.runs[r]) && RowStep(w, s.claims, r, s.runs[r], s'.runs[r]);
    EvolvesKeeps(w.defs[s.runs[r].workflow], s.runs[r], s'.runs[r]);
    if !Fence(s.runs[r], t, s.clock) {
      assert s'.runs[r] == s.runs[r] && s'.history == s.history;
    } else if c.tx.value.phase.Found? {
      DeliveredRow(w, r, s.runs[r], s'.runs[r], s.history[r], s'.history[r], t, c, s.log, s.emitted, s.clock);
    } else {
      ParkedRow(w, r, s.runs[r], s'.runs[r], s.history[r], s'.history[r], t, c, s.log, s.emitted, s.clock);
    }
  }

  /** What delivery does to the row. */
  lemma DeliveredFields(def: Definition, t: Token, c: ClaimedRun, run: Run, clock: Time)
    requires ClaimOk(def, t, c, run) && Fence(run, t, clock) && CanSettle(c) && c.tx.value.phase.Found?
    ensures var after := Settle(c, t, run, clock).run;
            var tx := c.tx.value;
            && after.input == run.input && after.workflow == run.workflow && !after.state.Waiting?
            && tx.index !in run.checkpoints && after.checkpoints == run.checkpoints[tx.index := Received(tx.phase.event.payload)]
    ensures TxOk(def, c.run, run, c.tx.value)
  {
    hide StatementOk, KeyAt, Received;
  }

  lemma DeliveredOutcome(def: Definition, r: RunId, run: Run, after: Run, h': History, tx: WaitTx, log: set<Event>, emitted: seq<Event>, clock: Time)
    requires RunOk(def, r, run) && RunOk(def, r, after) && TxOk(def, r, run, tx) && tx.phase.Found? && TxAt(tx, log, emitted, clock)
    requires after.input == run.input && tx.index !in run.checkpoints
    requires tx.index in h'.deliveries && h'.deliveries[tx.index] == AtLookup(tx.phase.event, tx.begin, tx.phase.look)
    requires after.checkpoints == run.checkpoints[tx.index := Received(tx.phase.event.payload)]
    ensures OutcomeAt(def, r, after, h', tx.index, emitted, clock)
  {
    hide RunOk, KeyAt, TimeoutOk, Received, LookOk, NewestAt;
    FrontierIsTop(def, r, run, tx.index);
    KeyStable(def, r, run, after, tx.index);
    assert KeyAt(def, r, after, tx.index) == Some(tx.key);
  }

  lemma DeliveredRow(w: World, r: RunId, run: Run, after: Run, h: History, h': History, t: Token, c: ClaimedRun,
                     log: set<Event>, emitted: seq<Event>, clock: Time)
    requires RowOk(w, r, run) && RowOk(w, r, after) && EventRow(w, r, run, h, log, emitted, clock)
    requires c.run == r && ClaimOk(w.defs[run.workflow], t, c, run) && Fence(run, t, clock) && CanSettle(c) && c.tx.value.phase.Found?
    requires TxAt(c.tx.value, log, emitted, clock) && after == Settle(c, t, run, clock).run && h' == Noted(h, c.tx.value)
    ensures EventRow(w, r, after, h', log, emitted, clock)
  {
    hide RunOk, ClaimOk, EventRow, OutcomeAt, TxAt, Settle, Received;
    var def := w.defs[run.workflow];
    var tx := c.tx.value;
    DeliveredFields(def, t, c, run, clock);
    DeliveredOutcome(def, r, run, after, h', tx, log, emitted, clock);
    RowRecorded(w, r, run, after, h, h', tx.index, log, log, emitted, emitted, clock);
  }

  /** The wait a transaction registers after it found nothing under the lock. */
  lemma ParkedWait(def: Definition, r: RunId, run: Run, after: Run, tx: WaitTx, reg: Registration, log: set<Event>, emitted: seq<Event>, clock: Time)
    requires tx.phase.Empty? && TxAt(tx, log, emitted, clock) && TxOk(def, r, run, tx) && SentOk(def, tx)
    requires after.input == run.input && after.checkpoints == run.checkpoints
    requires reg == Registration(tx.key, tx.begin, tx.begin + WholeMillis(tx.timeout), tx.phase.look)
    ensures RegistrationOk(def, r, after, tx.index, reg) && Unanswered(reg, log, emitted) && LookOk(reg.look, emitted, clock)
  {
    hide Frontier, WholeMillis, LookOk;
  }

  /** What parking does to the row. */
  lemma ParkedFields(def: Definition, t: Token, c: ClaimedRun, run: Run, clock: Time)
    requires ClaimOk(def, t, c, run) && Fence(run, t, clock) && CanSettle(c) && c.tx.value.phase.Empty?
    ensures var after := Settle(c, t, run, clock).run;
            var tx := c.tx.value;
            && after.input == run.input && after.checkpoints == run.checkpoints && after.state.Waiting? && after.workflow == run.workflow
            && after.cursor == tx.index && after.waitKey == Some(tx.key) && after.waitDeadline == Some(tx.begin + WholeMillis(tx.timeout))
    ensures TxOk(def, c.run, run, c.tx.value) && SentOk(def, c.tx.value)
  {
    hide StatementOk, TxOk, SentOk, WholeMillis;
  }

  lemma ParkedRow(w: World, r: RunId, run: Run, after: Run, h: History, h': History, t: Token, c: ClaimedRun,
                  log: set<Event>, emitted: seq<Event>, clock: Time)
    requires RowOk(w, r, run) && RowOk(w, r, after) && EventRow(w, r, run, h, log, emitted, clock)
    requires c.run == r && ClaimOk(w.defs[run.workflow], t, c, run) && Fence(run, t, clock) && CanSettle(c) && c.tx.value.phase.Empty?
    requires TxAt(c.tx.value, log, emitted, clock) && after == Settle(c, t, run, clock).run && h' == Noted(h, c.tx.value)
    ensures EventRow(w, r, after, h', log, emitted, clock)
  {
    hide RunOk, ClaimOk, OutcomeAt, TxAt, TxOk, SentOk, RegistrationOk, Unanswered, LookOk, WholeMillis, Settle;
    var def := w.defs[run.workflow];
    var tx := c.tx.value;
    ParkedFields(def, t, c, run, clock);
    ParkedWait(def, r, run, after, tx, h'.registrations[tx.index], log, emitted, clock);
    assert WaitAt(def, r, after, h', log, emitted, clock);
    forall p | p in after.checkpoints && p < |def.ops| && def.ops[p].Wait?
      ensures OutcomeAt(def, r, after, h', p, emitted, clock)
    {
      OutcomesKept(def, r, run, after, h, h', emitted, emitted, clock, clock, p);
    }
  }

  lemma SettleEvents(w: World, s: Sys, s': Sys, t: Token)
    requires CoreOk(w, s.runs, s.claims) && EventsOk(w, s)
    requires t in s.claims && s.claims[t].run in s.runs && CanSettle(s.claims[t])
    requires s' == DoServer(s, t, WaitSettle) && RowsStep(w, s, s')
    ensures EventsOk(w, s')
  {
    hide CoreOk, RowsStep, EventRow, TxAt;
    SettledRow(w, s, s', t);
    SettleFrame(s, t);
    hide Executed, Registered;
    FewerHolders(w, s, s');
  }

  lemma SettleFrame(s: Sys, t: Token)
    requires t in s.claims && s.claims[t].run in s.runs && CanSettle(s.claims[t])
    ensures var s' := DoServer(s, t, WaitSettle);
            && s'.claims == s.claims[t := s'.claims[t]] && s'.claims[t].tx.None?
            && s'.runs == s.runs[s.claims[t].run := s'.runs[s.claims[t].run]]
            && (forall r :: r in s.history && r != s.claims[t].run ==> r in s'.history && s'.history[r] == s.history[r])
            && s' == s.(claims := s'.claims, runs := s'.runs, history := s'.history)
  {
  }

  /* ---- emit and timeout ---- */

  lemma EmitRow(w: World, r: RunId, run: Run, h: History, tx: EmitTx, e: Event, log: set<Event>, emitted: seq<Event>, clock: Time)
    requires RowOk(w, r, run) && EventRow(w, r, run, h, log, emitted, clock)
    requires e.key == tx.key && e.payload == tx.payload && e.created == tx.begin
    ensures var woken := Awaits(run, tx.key, tx.begin);
            EventRow(w, r, if woken then Wake(run, tx.payload, tx.begin) else run,
                     if woken then NoteWake(h, run.cursor, e, |emitted|) else h, log + {e}, emitted + [e], clock)
  {
    if Awaits(run, tx.key, tx.begin) {
      WokenRow(w, r, run, h, tx, e, log, emitted, clock);
    } else {
      PassedRow(w, r, run, h, tx, e, log, emitted, clock);
    }
  }

  /** An event that wakes a wait is the first answer since it was parked. */
  lemma WokenDelivery(def: Definition, r: RunId, run: Run, after: Run, h: History, e: Event, log: set<Event>, emitted: seq<Event>, clock: Time)
    requires WaitAt(def, r, run, h, log, emitted, clock) && Awaits(run, e.key, e.created)
    requires run.cursor < |def.ops| && def.ops[run.cursor].Wait? && KeyAt(def, r, run, run.cursor) == KeyAt(def, r, after, run.cursor)
    ensures run.cursor in h.registrations
    ensures DeliveryOk(def, r, after, run.cursor, ByEmission(e, h.registrations[run.cursor], |emitted|), emitted + [e], clock)
  {
    hide KeyAt, LookOk;
    LookKept(h.registrations[run.cursor].look, emitted, emitted + [e], clock, clock);
    assert (emitted + [e])[..|emitted|] == emitted;
    assert |emitted| >= h.registrations[run.cursor].look.seen by {
      SeenWithin(h.registrations[run.cursor].look, emitted, clock);
    }
  }

  lemma SeenWithin(look: Look, emitted: seq<Event>, clock: Time)
    requires LookOk(look, emitted, clock)
    ensures look.seen <= |emitted|
  {
  }

  lemma WokenRow(w: World, r: RunId, run: Run, h: History, tx: EmitTx, e: Event, log: set<Event>, emitted: seq<Event>, clock: Time)
    requires RowOk(w, r, run) && EventRow(w, r, run, h, log, emitted, clock)
    requires e.key == tx.key && e.payload == tx.payload && e.created == tx.begin
    requires Awaits(run, tx.key, tx.begin)
    ensures EventRow(w, r, Wake(run, tx.payload, tx.begin), NoteWake(h, run.cursor, e, |emitted|), log + {e}, emitted + [e], clock)
  {
    hide Justified, CountersOk, OutputOk, DeliveryOk, TimeoutOk, WaitAt, OutcomesAt, KeyAt;
    var def := w.defs[run.workflow];
    var after := Wake(run, tx.payload, tx.begin);
    var h' := NoteWake(h, run.cursor, e, |emitted|);
    WakeKeeps(def, r, run, tx.payload, tx.begin);
    KeyStable(def, r, run, after, run.cursor);
    WokenDelivery(def, r, run, after, h, e, log, emitted, clock);
    assert OutcomeAt(def, r, after, h', run.cursor, emitted + [e], clock);
    hide EventRow, OutcomeAt;
    RowRecorded(w, r, run, after, h, h', run.cursor, log, log + {e}, emitted, emitted + [e], clock);
  }

  lemma PassedRow(w: World, r: RunId, run: Run, h: History, tx: EmitTx, e: Event, log: set<Event>, emitted: seq<Event>, clock: Time)
    requires RowOk(w, r, run) && EventRow(w, r, run, h, log, emitted, clock)
    requires e.key == tx.key && e.created == tx.begin
    requires !Awaits(run, tx.key, tx.begin)
    ensures EventRow(w, r, run, h, log + {e}, emitted + [e], clock)
  {
    hide RunOk, OutcomeAt, LookOk, RegistrationOk;
    var def := w.defs[run.workflow];
    if run.state.Waiting? {
      assert !Answers(e, h.registrations[run.cursor]);
      LookKept(h.registrations[run.cursor].look, emitted, emitted + [e], clock, clock);
    }
    assert WaitAt(def, r, run, h, log + {e}, emitted + [e], clock);
    forall q | q in run.checkpoints && q < |def.ops| && def.ops[q].Wait?
      ensures OutcomeAt(def, r, run, h, q, emitted + [e], clock)
    {
      OutcomesKept(def, r, run, run, h, h, emitted, emitted + [e], clock, clock, q);
    }
  }

  /** No waiter is between its lookup and its park on a key that is being emitted. */
  lemma EmitTxs(w: World, s: Sys, x: nat, e: Event, t: Token)
    requires EventsOk(w, s) && x in s.emits && s.emits[x].locked && e.key == s.emits[x].key
    requires t in s.claims && s.claims[t].tx.Some?
    ensures TxAt(s.claims[t].tx.value, s.log + {e}, s.emitted + [e], s.clock)
  {
    hide EventRow;
    var tx := s.claims[t].tx.value;
    assert Holds(w, s.claims, s.emits, Emitter(x), w.lock(e.key));
    assert !Holds(w, s.claims, s.emits, Waiter(t), w.lock(e.key));
    if tx.phase.Found? || tx.phase.Empty? {
      LookKept(tx.phase.look, s.emitted, s.emitted + [e], s.clock, s.clock);
    }
  }

  lemma EmitEvents(w: World, s: Sys, s': Sys, x: nat)
    requires CoreOk(w, s.runs, s.claims) && EventsOk(w, s) && x in s.emits && s.emits[x].locked
    requires s' == DoEmit(w, s, x)
    ensures EventsOk(w, s')
  {
    hide CoreOk, EventRow, TxAt, Wake, Awaits, NoteWake, WholeMillis;
    var tx := s.emits[x];
    var e := Event(s.nextEvent, tx.key, tx.payload, tx.begin, tx.begin + WholeMillis(w.eventTtl));
    FewerHolders(w, s, s');
    forall t | t in s'.claims && s'.claims[t].tx.Some?
      ensures TxAt(s'.claims[t].tx.value, s'.log, s'.emitted, s'.clock)
    {
      EmitTxs(w, s, x, e, t);
    }
    EmitRows(w, s, s', x, e);
  }

  lemma EmitRows(w: World, s: Sys, s': Sys, x: nat, e: Event)
    requires CoreOk(w, s.runs, s.claims) && EventRows(w, s) && x in s.emits && s' == DoEmit(w, s, x)
    requires var tx := s.emits[x];
             e == Event(s.nextEvent, tx.key, tx.payload, tx.begin, tx.begin + WholeMillis(w.eventTtl))
    ensures EventRows(w, s')
  {
    hide RowOk, ClaimAt, TokenAt, EventRow, Wake, Awaits, NoteWake, WholeMillis;
    var tx := s.emits[x];
    forall r | r in s'.runs
      ensures r in s'.history && EventRow(w, r, s'.runs[r], s'.history[r], s'.log, s'.emitted, s'.clock)
    {
      EmitRow(w, r, s.runs[r], s.history[r], tx, e, s.log, s.emitted, s.clock);
    }
  }

  /** A waiting row whose deadline passed supports the timeout that is noted for it. */
  lemma PromotedTimeout(def: Definition, r: RunId, run: Run, after: Run, h: History, statement: Time,
                        log: set<Event>, emitted: seq<Event>, clock: Time)
    requires WaitAt(def, r, run, h, log, emitted, clock) && Overdue(run, statement) && statement <= clock
    requires run.cursor < |def.ops| && def.ops[run.cursor].Wait? && KeyAt(def, r, run, run.cursor) == KeyAt(def, r, after, run.cursor)
    ensures run.cursor in h.registrations
    ensures TimeoutOk(def, r, after, run.cursor, Timeout(h.registrations[run.cursor], statement, |emitted|), emitted, clock)
  {
    hide KeyAt;
    assert emitted[..|emitted|] == emitted;
    SeenWithin(h.registrations[run.cursor].look, emitted, clock);
  }

  lemma PromotedOutcome(def: Definition, r: RunId, run: Run, after: Run, h: History, h': History, statement: Time,
                        log: set<Event>, emitted: seq<Event>, clock: Time)
    requires RunOk(def, r, run) && RunOk(def, r, after) && after.input == run.input && Keeps(run.checkpoints, after.checkpoints)
    requires run.cursor in after.checkpoints && after.checkpoints[run.cursor] == TIMED_OUT
    requires WaitAt(def, r, run, h, log, emitted, clock) && Overdue(run, statement) && statement <= clock
    requires h' == NoteTimeout(h, run.cursor, statement, |emitted|)
    ensures run.cursor < |def.ops| && def.ops[run.cursor].Wait?
    ensures OutcomeAt(def, r, after, h', run.cursor, emitted, clock)
  {
    hide WaitAt, TimeoutOk, KeyAt, Justified, CountersOk, OutputOk;
    KeyStable(def, r, run, after, run.cursor);
    PromotedTimeout(def, r, run, after, h, statement, log, emitted, clock);
  }

  lemma PromotedRow(w: World, r: RunId, run: Run, h: History, now: Time, statement: Time, log: set<Event>, emitted: seq<Event>, clock: Time)
    requires RowOk(w, r, run) && EventRow(w, r, run, h, log, emitted, clock)
    requires Overdue(run, statement) && statement <= clock
    ensures EventRow(w, r, TimeOut(run, now), NoteTimeout(h, run.cursor, statement, |emitted|), log, emitted, clock)
  {
    hide RunOk, WaitAt, OutcomesAt, OutcomeAt;
    var def := w.defs[run.workflow];
    var after := TimeOut(run, now);
    var h' := NoteTimeout(h, run.cursor, statement, |emitted|);
    TimeOutKeeps(def, r, run, now);
    PromotedOutcome(def, r, run, after, h, h', statement, log, emitted, clock);
    hide EventRow;
    RowRecorded(w, r, run, after, h, h', run.cursor, log, log, emitted, emitted, clock);
  }

  lemma PromoteEvents(w: World, s: Sys, s': Sys, picked: set<RunId>, now: Time, statement: Time)
    requires CoreOk(w, s.runs, s.claims) && EventsOk(w, s) && picked <= s.runs.Keys && statement <= s.clock
    requires forall r :: r in picked ==> Overdue(s.runs[r], statement)
    requires s' == DoPromote(s, picked, now, statement)
    ensures EventsOk(w, s')
  {
    hide RowOk, EventRow, TxAt, TimeOut, NoteTimeout, Overdue;
    FewerHolders(w, s, s');
    forall r | r in s'.runs
      ensures r in s'.history && EventRow(w, r, s'.runs[r], s'.history[r], s'.log, s'.emitted, s'.clock)
    {
      if r in picked {
        PromotedRow(w, r, s.runs[r], s.history[r], now, statement, s.log, s.emitted, s.clock);
      }
    }
  }

  /* ---- all steps ---- */

  lemma ClaimEvents(w: World, s: Sys, s': Sys, r: RunId, t: Token, started: Time)
    requires CoreOk(w, s.runs, s.claims) && EventsOk(w, s) && RowsStep(w, s, s')
    requires r in s.runs && s.runs[r].workflow in w.defs && t !in s.claims && s' == DoClaim(w, s, r, t, started)
    ensures EventsOk(w, s')
  {
    hide CoreOk, EventsOk, RowsStep;
    KeptEvents(w, s, s');
  }

  lemma RenewEvents(w: World, s: Sys, s': Sys, tokens: set<Token>, passAt: Time)
    requires CoreOk(w, s.runs, s.claims) && EventsOk(w, s) && RowsStep(w, s, s')
    requires tokens <= s.claims.Keys && s' == DoRenew(w, s, tokens, passAt)
    ensures EventsOk(w, s')
  {
    hide CoreOk, EventsOk, RowsStep;
    KeptEvents(w, s, s');
  }

  lemma RecoverEvents(w: World, s: Sys, s': Sys, picked: set<RunId>)
    requires CoreOk(w, s.runs, s.claims) && EventsOk(w, s) && RowsStep(w, s, s')
    requires s' == DoRecover(s, picked)
    ensures EventsOk(w, s')
  {
    hide CoreOk, EventsOk, RowsStep;
    KeptEvents(w, s, s');
  }

  lemma CancelEvents(w: World, s: Sys, s': Sys, r: RunId)
    requires CoreOk(w, s.runs, s.claims) && EventsOk(w, s) && RowsStep(w, s, s')
    requires r in s.runs && s' == s.(runs := s.runs[r := Cancel(s.runs[r])])
    ensures EventsOk(w, s')
  {
    hide CoreOk, EventsOk, RowsStep;
    KeptEvents(w, s, s');
  }

  lemma EventStep(w: World, s: Sys, l: Label)
    requires WorldOk(w) && CoreOk(w, s.runs, s.claims) && EventsOk(w, s) && Enabled(w, s, l) && RowsStep(w, s, Apply(w, s, l))
    ensures EventsOk(w, Apply(w, s, l))
  {
    hide WorldOk, CoreOk, EventsOk, RowsStep, DoEmit, DoPromote, DoRecover, DoRenew, DoClaim, DoEnqueue, DoServer, DoTxMove,
      DoEmitMove, Moved, CanMove, CanTxMove, Claimable, CanEmitMove, CanSettle;
    match l {
      case Tick(to) => TickEvents(w, s, to);
      case Enqueue(_, _, _, _, _, _, _, _) => EnqueueEvents(w, s, l);
      case Local(t, m) => LocalEvents(w, s, t, m);
      case Waiting(t, m) => WaitingEvents(w, s, t, m);
      case Server(t, x) =>
        if x.WaitSettle? {
          SettleEvents(w, s, Apply(w, s, l), t);
        } else {
          DriveEvents(w, s, Apply(w, s, l), t, x);
        }
      case Emitting(x, m) => EmittingEvents(w, s, x, m);
      case EmitCommit(x) => EmitEvents(w, s, Apply(w, s, l), x);
      case Prune(events, statement) => PruneEvents(w, s, events, statement);
      case PromoteTimedOut(picked, now, statement) => PromoteEvents(w, s, Apply(w, s, l), picked, now, statement);
      case ClaimRun(r, t, started, _, _) => ClaimEvents(w, s, Apply(w, s, l), r, t, started);
      case RenewLeases(tokens, passAt) => RenewEvents(w, s, Apply(w, s, l), tokens, passAt);
      case RecoverLeases(picked, _) => RecoverEvents(w, s, Apply(w, s, l), picked);
      case CancelRun(r) => CancelEvents(w, s, Apply(w, s, l), r);
    }
  }
}
