/** What user code sees, field by field, and what was made of it: step results, event keys and waits. */
module Contexts {
  import opened Basics
  import opened Workflow
  import opened Rows
  import opened RunInvariant
  import opened Worker
  import opened ClaimInvariant
  import opened Protocol
  import opened CoreInvariant
  import opened EventInvariant
  import opened LeaseInvariant
  import opened SystemInvariant
  import opened Occurrences
  import opened Columns
  import opened Theorems
  import Text

  /** The context describes the run at position `p`: whose run it is, its workflow and input, the key of the position,
      and for every earlier position its checkpoint, if there is one. */
  ghost predicate Describes(sc: StepContext, def: Definition, r: RunId, run: Run, p: nat)
    requires p < |def.ops| && Records(def.ops[p])
  {
    && sc.runId == r && sc.workflow == run.workflow.name && sc.input == run.input
    && sc.stepKey == Text.Decimal(p) + ":" + def.ops[p].name && sc.names == def.names
    && |sc.values| == p
    && (forall q :: 0 <= q < p ==> sc.values[q] == if q in run.checkpoints then Some(run.checkpoints[q]) else None)
  }

  lemma DescribesIsContext(sc: StepContext, def: Definition, r: RunId, run: Run, p: nat)
    requires p < |def.ops| && Records(def.ops[p]) && run.workflow == KeyOf(def)
    ensures Describes(sc, def, r, run, p) <==> sc == ContextAt(def, r, run.input, run.checkpoints, p)
  {
    if Describes(sc, def, r, run, p) {
      assert sc.values == ValuesOf(run.checkpoints, p);
    }
  }

  /** Every invocation of user code, by any claim at any time, is given the run's identity, workflow name and input as
      they were enqueued, the key of its position, and exactly the checkpoints of the positions before it. */
  lemma ContextDescribesRun(w: World, states: seq<Sys>, labels: seq<Label>, i: nat, t: Token) returns (e: nat)
    requires WorldOk(w) && IsTrace(w, states, labels) && i <= |labels|
    requires t in states[i].claims && InUserCode(states[i].claims[t])
    ensures e < i && IsEnqueue(states[e], labels[e], states[i].claims[t].run)
    ensures var c := states[i].claims[t];
            var sc := c.phase.sc;
            && sc.runId == c.run && sc.workflow == labels[e].workflow.name && sc.input == labels[e].input
            && c.run in states[i].runs && states[i].runs[c.run].workflow == labels[e].workflow && labels[e].workflow in w.defs
            && c.index < |w.defs[labels[e].workflow].ops| && Records(w.defs[labels[e].workflow].ops[c.index])
            && Describes(sc, w.defs[labels[e].workflow], c.run, states[i].runs[c.run], c.index)
            && (forall q :: 0 <= q < c.index ==> (sc.values[q].Some? <==> Records(w.defs[labels[e].workflow].ops[q])))
  {
    hide Enabled, Apply;
    assert |states| == |labels| + 1;
    hide IsTrace, WorldOk, IsEnqueue, IsNew;
    ContextIsStored(w, states, labels, i, i, t);
    var c := states[i].claims[t];
    var run := states[i].runs[c.run];
    e := EnqueuedOnce(w, states, labels, i, c.run);
    RowsAreOk(w, states, labels, i, c.run);
    DescribesIsContext(c.phase.sc, w.defs[run.workflow], c.run, run, c.index);
    hide Justified, OutputOk, CountersOk, ContextAt, WellFormed;
  }

  /** Every stored step result is something the step may return in the context that describes the run at its position. */
  lemma ResultsFitTheirContext(w: World, states: seq<Sys>, labels: seq<Label>, i: nat, r: RunId, p: nat, sc: StepContext)
    requires WorldOk(w) && IsTrace(w, states, labels) && i <= |labels|
    requires r in states[i].runs && states[i].runs[r].workflow in w.defs && p in states[i].runs[r].checkpoints
    requires p < |w.defs[states[i].runs[r].workflow].ops| && w.defs[states[i].runs[r].workflow].ops[p].Step?
    requires Describes(sc, w.defs[states[i].runs[r].workflow], r, states[i].runs[r], p)
    ensures w.defs[states[i].runs[r].workflow].ops[p].may(sc, states[i].runs[r].checkpoints[p])
  {
    hide Enabled, Apply;
    assert |states| == |labels| + 1;
    hide IsTrace, WorldOk;
    RowsAreOk(w, states, labels, i, r);
    hide FieldsOk, CountersOk, OutputOk, ProgressOk, WellFormed, Describes;
    var run := states[i].runs[r];
    var def := w.defs[run.workflow];
    assert JustifiedAt(def, r, run.input, run.checkpoints, p);
    DescribesIsContext(sc, def, r, run, p);
  }

  /* ---- event keys ---- */

  /** `key` is what is left of `raw` without the white space around it. */
  ghost predicate Stripped(raw: string, key: string) {
    exists a: nat, b: nat :: StrippedAt(raw, key, a, b)
  }

  predicate StrippedAt(raw: string, key: string, a: nat, b: nat) {
    && a <= b <= |raw| && key == raw[a..b] && key != "" && !Text.IsSpace(key[0]) && !Text.IsSpace(key[|key| - 1])
    && (forall k :: 0 <= k < a ==> Text.IsSpace(raw[k])) && (forall k :: b <= k < |raw| ==> Text.IsSpace(raw[k]))
  }

  lemma StrippedOnce(raw: string, key: string, a: nat, b: nat, key': string, a': nat, b': nat)
    requires StrippedAt(raw, key, a, b) && StrippedAt(raw, key', a', b')
    ensures key == key'
  {
    assert raw[a] == key[0] && raw[a'] == key'[0];
    assert raw[b - 1] == key[|key| - 1] && raw[b' - 1] == key'[|key'| - 1];
  }

  /** The resolver, called with the context that describes the run at the wait, gives the key up to white space. */
  ghost predicate KeyFrom(def: Definition, r: RunId, run: Run, p: nat, key: string)
    requires p < |def.ops| && def.ops[p].Wait?
  {
    forall sc :: Describes(sc, def, r, run, p) ==> def.ops[p].keyFn(sc).Some? && Stripped(def.ops[p].keyFn(sc).value, key)
  }

  lemma KeyIsResolved(def: Definition, r: RunId, run: Run, p: nat, key: string)
    requires p < |def.ops| && def.ops[p].Wait? && run.workflow == KeyOf(def)
    ensures KeyAt(def, r, run, p) == Some(key) <==> KeyFrom(def, r, run, p, key)
  {
    var at := ContextAt(def, r, run.input, run.checkpoints, p);
    forall sc ensures Describes(sc, def, r, run, p) <==> sc == at {
      DescribesIsContext(sc, def, r, run, p);
    }
    hide Describes, ContextAt;
    var raw := def.ops[p].keyFn(at);
    if raw.Some? {
      TrimStrips(raw.value, key);
    }
  }

  lemma TrimStrips(raw: string, key: string)
    ensures Stripped(raw, key) <==> key != "" && Text.Trim(raw) == key
  {
    var a, b := Text.TrimBounds(raw);
    var trimmed := Text.Trim(raw);
    if trimmed != "" {
      assert StrippedAt(raw, trimmed, a, b);
    }
    if Stripped(raw, key) {
      var a': nat, b': nat :| StrippedAt(raw, key, a', b');
      assert raw[a'] == key[0];
      StrippedOnce(raw, key, a', b', trimmed, a, b);
    }
  }

  /** A waiting run waits for the key that its resolver gives, until the timeout of its wait after the start of the
      transaction that parked it. */
  lemma {:induction false} WaitingSincePark(w: World, states: seq<Sys>, labels: seq<Label>, i: nat, r: RunId) returns (k: nat)
    requires WorldOk(w) && IsTrace(w, states, labels) && i <= |labels| && r in states[i].runs && states[i].runs[r].state.Waiting?
    ensures k < i && IsPark(states[k], labels[k], r) && states[i].runs[r].cursor == states[k].claims[labels[k].token].tx.value.index
    ensures states[i].runs[r].waitKey == Some(states[k].claims[labels[k].token].tx.value.key)
    ensures states[i].runs[r].waitDeadline ==
            Some(states[k].claims[labels[k].token].tx.value.begin + Millis(states[k].claims[labels[k].token].tx.value.timeout))
    ensures forall m :: k < m <= i ==> r in states[m].runs && states[m].runs[r].state.Waiting?
  {
    hide Enabled, Apply;
    assert |states| == |labels| + 1 && states[0].runs == map[];
    assert Enabled(w, states[i - 1], labels[i - 1]);
    hide WorldOk, IsTrace;
    StepColumns(w, states, labels, i - 1, r);
    if IsPark(states[i - 1], labels[i - 1], r) {
      k := i - 1;
    } else {
      k := WaitingSincePark(w, states, labels, i - 1, r);
    }
  }

  /** A waiting run waits for the key its resolver gives in the context that describes the run, until its wait's timeout,
      in whole milliseconds, has passed since the transaction that parked it began. */
  lemma WaitingForItsKey(w: World, states: seq<Sys>, labels: seq<Label>, i: nat, r: RunId) returns (k: nat)
    requires WorldOk(w) && IsTrace(w, states, labels) && i <= |labels| && r in states[i].runs && states[i].runs[r].state.Waiting?
    ensures k < i && IsPark(states[k], labels[k], r)
    ensures var run := states[i].runs[r];
            && run.workflow in w.defs && run.waitKey.Some? && run.cursor < |w.defs[run.workflow].ops|
            && var op := w.defs[run.workflow].ops[run.cursor];
               && op.Wait? && KeyFrom(w.defs[run.workflow], r, run, run.cursor, run.waitKey.value)
               && run.waitDeadline == Some(states[k].claims[labels[k].token].tx.value.begin + op.timeout / 1_000_000 * 1_000_000)
  {
    hide Enabled, Apply;
    assert |states| == |labels| + 1;
    hide IsTrace, WorldOk, KeyFrom;
    k := WaitingSincePark(w, states, labels, i, r);
    RowsLater(w, states, labels, k, i, r);
    ParkedTimeout(w, states, labels, k, r);
    WaitKey(w, states, labels, i, r);
  }

  lemma ParkedTimeout(w: World, states: seq<Sys>, labels: seq<Label>, k: nat, r: RunId)
    requires WorldOk(w) && IsTrace(w, states, labels) && k < |labels| && IsPark(states[k], labels[k], r)
    ensures states[k].runs[r].workflow in w.defs
    ensures var tx := states[k].claims[labels[k].token].tx.value;
            var ops := w.defs[states[k].runs[r].workflow].ops;
            tx.index < |ops| && ops[tx.index].Wait? && tx.timeout == ops[tx.index].timeout
  {
    hide Enabled, Apply;
    assert |states| == |labels| + 1;
    hide IsTrace, WorldOk, StatementOk, TxOk;
    ClaimsAreOk(w, states, labels, k, labels[k].token);
  }

  lemma WaitKey(w: World, states: seq<Sys>, labels: seq<Label>, i: nat, r: RunId)
    requires WorldOk(w) && IsTrace(w, states, labels) && i <= |labels| && r in states[i].runs && states[i].runs[r].state.Waiting?
    ensures var run := states[i].runs[r];
            && run.workflow in w.defs && run.waitKey.Some? && run.cursor < |w.defs[run.workflow].ops|
            && w.defs[run.workflow].ops[run.cursor].Wait?
            && KeyFrom(w.defs[run.workflow], r, run, run.cursor, run.waitKey.value)
  {
    hide Enabled, Apply;
    assert |states| == |labels| + 1;
    Reachable(w, states, labels, i);
    RowsAreOk(w, states, labels, i, r);
    hide IsTrace, WorldOk, CoreOk, LeaseOk, DedupOk, LocksOk, LogOk, TxsOk, OutcomesAt, KeyAt, KeyFrom, Unanswered, LookOk;
    var run := states[i].runs[r];
    assert EventRow(w, r, run, states[i].history[r], states[i].log, states[i].emitted, states[i].clock);
    KeyIsResolved(w.defs[run.workflow], r, run, run.cursor, run.waitKey.value);
  }
}
