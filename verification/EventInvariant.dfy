/** Events: the advisory lock, the log, wait transactions, registered waits and recorded outcomes. */
module EventInvariant {
  import opened Basics
  import opened Workflow
  import opened Rows
  import opened Tables
  import opened RunInvariant
  import opened Worker
  import opened ClaimInvariant
  import opened Protocol
  import opened CoreInvariant

  /* ---- locks ---- */

  ghost predicate LocksOk(w: World, claims: map<Token, ClaimedRun>, emits: map<nat, EmitTx>) {
    forall a, b, k :: Holds(w, claims, emits, a, k) && Holds(w, claims, emits, b, k) ==> a == b
  }

  /* ---- log and transactions ---- */

  /** Only pruning removes events, and only expired ones; no two events share an id. */
  ghost predicate LogOk(s: Sys) {
    && IdsOk(s.log, s.nextEvent)
    && (forall e :: e in s.log ==> e in s.emitted)
    && (forall e :: e in s.emitted ==> e.created <= s.clock && (e in s.log || e in s.pruned))
    && (forall e :: e in s.pruned ==> e in s.emitted && e.expires <= s.clock)
    && (forall x :: x in s.emits ==> s.emits[x].begin <= s.clock)
  }

  /** A lookup knew a prefix of the committed events, and what was pruned of it had expired. */
  ghost predicate LookOk(look: Look, emitted: seq<Event>, clock: Time) {
    && look.at <= clock && look.seen <= |emitted|
    && (forall e :: e in look.pruned ==> e in emitted[..look.seen] && e.expires <= look.at)
  }

  /** Of all events with its key committed by the lookup and unexpired at `begin`, the event is the newest
      that had not been pruned. */
  ghost predicate NewestAt(e: Event, begin: Time, look: Look, emitted: seq<Event>)
    requires look.seen <= |emitted|
  {
    && e in emitted[..look.seen] && e.expires > begin
    && (forall f :: f in emitted[..look.seen] && f.key == e.key && f.expires > begin && f !in look.pruned && f != e ==>
          f.created < e.created || (f.created == e.created && f.id < e.id))
  }

  /** Every event of the key among these had expired at `begin`, or was pruned before the lookup. */
  ghost predicate NoneLeft(key: string, begin: Time, look: Look, events: seq<Event>) {
    forall e :: e in events && e.key == key ==> e.expires <= begin || e in look.pruned
  }

  ghost predicate TxAt(tx: WaitTx, log: set<Event>, emitted: seq<Event>, clock: Time) {
    && tx.begin <= clock
    && (tx.phase.Found? ==>
          LookOk(tx.phase.look, emitted, clock) && tx.phase.event.key == tx.key && NewestAt(tx.phase.event, tx.begin, tx.phase.look, emitted))
    && (tx.phase.Empty? ==>
          && LookOk(tx.phase.look, emitted, clock) && tx.begin <= tx.phase.look.at
          && (forall e :: e in log && e.key == tx.key ==> e.expires <= tx.begin)
          && NoneLeft(tx.key, tx.begin, tx.phase.look, emitted))
  }

  ghost predicate TxsOk(s: Sys) {
    forall t :: t in s.claims && s.claims[t].tx.Some? ==> TxAt(s.claims[t].tx.value, s.log, s.emitted, s.clock)
  }

  /* ---- registered waits and outcomes ---- */

  /** The event answers the registered wait as far as key and deadline go. */
  predicate Answers(e: Event, reg: Registration) {
    e.key == reg.key && e.created < reg.deadline
  }

  ghost predicate RegistrationOk(def: Definition, r: RunId, run: Run, p: nat, reg: Registration) {
    && p < |def.ops| && def.ops[p].Wait? && KeyAt(def, r, run, p) == Some(reg.key)
    && reg.deadline == reg.begin + WholeMillis(def.ops[p].timeout)
    && reg.begin <= reg.look.at
  }

  /** Every answer among these events had expired when the wait began, or was pruned before it looked. */
  ghost predicate Missed(reg: Registration, events: seq<Event>) {
    forall e :: e in events && Answers(e, reg) ==> e.expires <= reg.begin || e in reg.look.pruned
  }

  /** No answer is waiting in the log, and every answer ever committed was out of reach of the lookup. */
  ghost predicate Unanswered(reg: Registration, log: set<Event>, emitted: seq<Event>) {
    (forall e :: e in log && Answers(e, reg) ==> e.expires <= reg.begin) && Missed(reg, emitted)
  }

  ghost predicate WaitAt(def: Definition, r: RunId, run: Run, h: History, log: set<Event>, emitted: seq<Event>, clock: Time) {
    run.state.Waiting? ==>
      && run.cursor in h.registrations
      && var reg := h.registrations[run.cursor];
         && RegistrationOk(def, r, run, run.cursor, reg)
         && run.waitKey == Some(reg.key) && run.waitDeadline == Some(reg.deadline) && LookOk(reg.look, emitted, clock)
         && Unanswered(reg, log, emitted)
  }

  /** The deadline had passed, and every event committed by then that answered the wait had expired when
      the wait began or was pruned before it looked. */
  ghost predicate TimeoutOk(def: Definition, r: RunId, run: Run, p: nat, t: Timeout, emitted: seq<Event>, clock: Time) {
    && RegistrationOk(def, r, run, p, t.registration)
    && t.registration.deadline <= t.promotedAt <= clock
    && t.registration.look.seen <= t.seen <= |emitted| && LookOk(t.registration.look, emitted, clock)
    && Missed(t.registration, emitted[..t.seen])
  }

  /** The event settled the wait: it was the newest one alive when the wait looked, or the first answer
      committed after the wait was parked, created before its deadline. */
  ghost predicate DeliveryOk(def: Definition, r: RunId, run: Run, p: nat, d: Delivery, emitted: seq<Event>, clock: Time)
    requires p < |def.ops| && def.ops[p].Wait?
  {
    && KeyAt(def, r, run, p) == Some(d.event.key)
    && match d
       case AtLookup(e, begin, look) => LookOk(look, emitted, clock) && begin <= clock && NewestAt(e, begin, look, emitted)
       case ByEmission(e, reg, seen) =>
         && RegistrationOk(def, r, run, p, reg) && LookOk(reg.look, emitted, clock)
         && reg.look.seen <= seen < |emitted| && emitted[seen] == e && Answers(e, reg) && Missed(reg, emitted[..seen])
  }

  ghost predicate OutcomeAt(def: Definition, r: RunId, run: Run, h: History, p: nat, emitted: seq<Event>, clock: Time)
    requires p in run.checkpoints && p < |def.ops| && def.ops[p].Wait?
  {
    || (run.checkpoints[p] == TIMED_OUT && p in h.timeouts && TimeoutOk(def, r, run, p, h.timeouts[p], emitted, clock))
    || (p in h.deliveries && run.checkpoints[p] == Received(h.deliveries[p].event.payload) &&
        DeliveryOk(def, r, run, p, h.deliveries[p], emitted, clock))
  }

  ghost predicate OutcomesAt(def: Definition, r: RunId, run: Run, h: History, emitted: seq<Event>, clock: Time) {
    forall p :: p in run.checkpoints && p < |def.ops| && def.ops[p].Wait? ==> OutcomeAt(def, r, run, h, p, emitted, clock)
  }

  ghost predicate EventRow(w: World, r: RunId, run: Run, h: History, log: set<Event>, emitted: seq<Event>, clock: Time) {
    && run.workflow in w.defs
    && WaitAt(w.defs[run.workflow], r, run, h, log, emitted, clock)
    && OutcomesAt(w.defs[run.workflow], r, run, h, emitted, clock)
  }

  ghost predicate EventRows(w: World, s: Sys) {
    forall r :: r in s.runs ==> r in s.history && EventRow(w, r, s.runs[r], s.history[r], s.log, s.emitted, s.clock)
  }

  /* ---- one row ---- */

  /** The key of a wait is settled once everything recorded below it is. */
  lemma KeyStable(def: Definition, r: RunId, run: Run, after: Run, p: nat)
    requires RunOk(def, r, run) && RunOk(def, r, after) && after.input == run.input && Keeps(run.checkpoints, after.checkpoints)
    requires p < |def.ops| && def.ops[p].Wait?
    requires p <= run.cursor || forall i :: 0 <= i < p && Records(def.ops[i]) ==> i in run.checkpoints
    ensures KeyAt(def, r, run, p) == KeyAt(def, r, after, p)
  {
    ContextDependsBelow(def, r, run.input, run.checkpoints, after.checkpoints, p);
  }

  lemma LookKept(look: Look, emitted: seq<Event>, emitted': seq<Event>, clock: Time, clock': Time)
    requires LookOk(look, emitted, clock) && emitted <= emitted' && clock <= clock'
    ensures LookOk(look, emitted', clock') && emitted'[..look.seen] == emitted[..look.seen]
  {
    assert emitted'[..look.seen] == emitted[..look.seen];
  }

  /** A noted timeout stays true while the key does and more events are emitted. */
  lemma TimeoutKept(def: Definition, r: RunId, run: Run, after: Run, p: nat, t: Timeout, emitted: seq<Event>, emitted': seq<Event>,
                    clock: Time, clock': Time)
    requires TimeoutOk(def, r, run, p, t, emitted, clock) && emitted <= emitted' && clock <= clock'
    requires p < |def.ops| && def.ops[p].Wait? && KeyAt(def, r, run, p) == KeyAt(def, r, after, p)
    ensures TimeoutOk(def, r, after, p, t, emitted', clock')
  {
    hide KeyAt, Missed, LookOk;
    LookKept(t.registration.look, emitted, emitted', clock, clock');
    assert emitted'[..t.seen] == emitted[..t.seen];
  }

  /** So does a noted delivery. */
  lemma DeliveryKept(def: Definition, r: RunId, run: Run, after: Run, p: nat, d: Delivery, emitted: seq<Event>, emitted': seq<Event>,
                     clock: Time, clock': Time)
    requires p < |def.ops| && def.ops[p].Wait? && KeyAt(def, r, run, p) == KeyAt(def, r, after, p)
    requires DeliveryOk(def, r, run, p, d, emitted, clock) && emitted <= emitted' && clock <= clock'
    ensures DeliveryOk(def, r, after, p, d, emitted', clock')
  {
    hide KeyAt, Missed, LookOk;
    if d.ByEmission? {
      LookKept(d.registration.look, emitted, emitted', clock, clock');
      assert emitted'[..d.seen] == emitted[..d.seen];
    } else {
      LookKept(d.look, emitted, emitted', clock, clock');
    }
  }

  /** What is noted of the settled wait at `p` stays. */
  predicate NotesKept(h: History, h': History, p: nat) {
    && (p in h.timeouts ==> p in h'.timeouts && h'.timeouts[p] == h.timeouts[p])
    && (p in h.deliveries ==> p in h'.deliveries && h'.deliveries[p] == h.deliveries[p])
  }

  lemma OutcomesKept(def: Definition, r: RunId, run: Run, after: Run, h: History, h': History, emitted: seq<Event>, emitted': seq<Event>,
                     clock: Time, clock': Time, p: nat)
    requires RunOk(def, r, run) && RunOk(def, r, after) && after.input == run.input && Keeps(run.checkpoints, after.checkpoints)
    requires p in run.checkpoints && p < |def.ops| && def.ops[p].Wait?
    requires OutcomeAt(def, r, run, h, p, emitted, clock)
    requires emitted <= emitted' && clock <= clock' && NotesKept(h, h', p)
    ensures OutcomeAt(def, r, after, h', p, emitted', clock')
  {
    hide RunOk, KeyAt, TimeoutOk, DeliveryOk;
    SettledBelow(def, r, run, p);
    KeyStable(def, r, run, after, p);
    if run.checkpoints[p] == TIMED_OUT && p in h.timeouts && TimeoutOk(def, r, run, p, h.timeouts[p], emitted, clock) {
      TimeoutKept(def, r, run, after, p, h.timeouts[p], emitted, emitted', clock, clock');
    } else {
      DeliveryKept(def, r, run, after, p, h.deliveries[p], emitted, emitted', clock, clock');
    }
  }

  lemma SettledBelow(def: Definition, r: RunId, run: Run, p: nat)
    requires RunOk(def, r, run) && p in run.checkpoints
    ensures p <= run.cursor
  {
  }

  /** A row that records no outcome and registers no wait keeps what it had. */
  lemma RowKept(w: World, r: RunId, run: Run, after: Run, h: History, h': History, log: set<Event>, emitted: seq<Event>, clock: Time)
    requires RowOk(w, r, run) && RowOk(w, r, after) && after.workflow == run.workflow && after.input == run.input
    requires Keeps(run.checkpoints, after.checkpoints)
    requires EventRow(w, r, run, h, log, emitted, clock)
    requires h'.registrations == h.registrations && h'.timeouts == h.timeouts && h'.deliveries == h.deliveries
    requires after.state.Waiting? ==> after == run
    requires forall p :: p in after.checkpoints && p !in run.checkpoints ==> p < |w.defs[run.workflow].ops| && w.defs[run.workflow].ops[p].Step?
    ensures EventRow(w, r, after, h', log, emitted, clock)
  {
    hide RunOk, OutcomeAt;
    var def := w.defs[run.workflow];
    forall p | p in after.checkpoints && p < |def.ops| && def.ops[p].Wait?
      ensures OutcomeAt(def, r, after, h', p, emitted, clock)
    {
      OutcomesKept(def, r, run, after, h, h', emitted, emitted, clock, clock, p);
    }
  }

  /** An outcome was recorded at position `p`. */
  lemma RowRecorded(w: World, r: RunId, run: Run, after: Run, h: History, h': History, p: nat,
                    log: set<Event>, log': set<Event>, emitted: seq<Event>, emitted': seq<Event>, clock: Time)
    requires RowOk(w, r, run) && RowOk(w, r, after) && after.workflow == run.workflow && after.input == run.input
    requires EventRow(w, r, run, h, log, emitted, clock) && emitted <= emitted'
    requires p !in run.checkpoints && p in after.checkpoints && after.checkpoints == run.checkpoints[p := after.checkpoints[p]]
    requires forall q :: q in run.checkpoints ==> NotesKept(h, h', q)
    requires !after.state.Waiting?
    requires p < |w.defs[run.workflow].ops| && w.defs[run.workflow].ops[p].Wait?
    requires OutcomeAt(w.defs[run.workflow], r, after, h', p, emitted', clock)
    ensures EventRow(w, r, after, h', log', emitted', clock)
  {
    hide RunOk, OutcomeAt;
    var def := w.defs[run.workflow];
    forall q | q in after.checkpoints && q < |def.ops| && def.ops[q].Wait?
      ensures OutcomeAt(def, r, after, h', q, emitted', clock)
    {
      if q != p {
        OutcomesKept(def, r, run, after, h, h', emitted, emitted', clock, clock, q);
      }
    }
  }

  lemma RowLater(w: World, r: RunId, run: Run, h: History, log: set<Event>, log': set<Event>, emitted: seq<Event>, clock: Time, clock': Time)
    requires RowOk(w, r, run) && EventRow(w, r, run, h, log, emitted, clock)
    requires log' <= log && clock <= clock'
    ensures EventRow(w, r, run, h, log', emitted, clock')
  {
    hide OutcomeAt;
    var def := w.defs[run.workflow];
    forall q | q in run.checkpoints && q < |def.ops| && def.ops[q].Wait?
      ensures OutcomeAt(def, r, run, h, q, emitted, clock')
    {
      OutcomesKept(def, r, run, run, h, h, emitted, emitted, clock, clock', q);
    }
  }
}
