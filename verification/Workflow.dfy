/** Compiled workflow definitions, the context handed to user code, and the
    straight-line meaning of a definition. */
module Workflow {
  import opened Basics
  import Text

  type RunId = string

  /** What the id column guarantees of an identifier, being a uuid, as far as anything depends on it. */
  predicate IsId(id: RunId) {
    id != "" && ':' !in id
  }

  datatype WorkflowKey = WorkflowKey(name: string, version: int)

  /** What a step function or an event-key resolver can see. */
  datatype StepContext = StepContext(
    runId: RunId,
    workflow: string,
    stepKey: string,
    input: Json,
    values: seq<Option<Json>>,
    names: map<string, nat>
  ) {
    function Raw(name: string): Option<Json> {
      if name in names && names[name] < |values| then values[names[name]] else None
    }

    function IdempotencyKey(): string {
      if runId == "" || stepKey == "" then "" else runId + ":" + stepKey
    }
  }

  /** One operation. A step is the relation between its context and the values it
      may return; whether it returns, fails or hangs is left open. */
  datatype Op =
    | Step(name: string, may: (StepContext, Json) -> bool)
    | Sleep(duration: nat)
    | Wait(name: string, keyFn: StepContext -> Option<string>, timeout: nat)

  /** Whether finishing the operation leaves a checkpoint. */
  predicate Records(op: Op) {
    !op.Sleep?
  }

  /** The event key of a wait: trimmed, and absent when the resolver fails or yields nothing. */
  function Resolve(op: Op, sc: StepContext): (key: Option<string>)
    requires op.Wait?
    ensures key.Some? ==> key.value != "" && Text.IsTrimmed(key.value)
  {
    match op.keyFn(sc)
    case None => None
    case Some(raw) => if Text.Trim(raw) == "" then None else Some(Text.Trim(raw))
  }

  datatype Definition = Definition(
    name: string,
    version: int,
    ops: seq<Op>,
    names: map<string, nat>,
    outputIndex: int
  )

  function KeyOf(def: Definition): WorkflowKey {
    WorkflowKey(def.name, def.version)
  }

  /** `names` lists exactly the recording operations, each under its own name. */
  ghost predicate NamesMatch(ops: seq<Op>, names: map<string, nat>) {
    && (forall i :: 0 <= i < |ops| && Records(ops[i]) ==> ops[i].name in names && names[ops[i].name] == i)
    && (forall n :: n in names ==> names[n] < |ops| && Records(ops[names[n]]) && ops[names[n]].name == n)
  }

  /** `k` is the greatest recording position, or -1 when there is none. */
  ghost predicate IsLastRecording(ops: seq<Op>, k: int) {
    && -1 <= k < |ops|
    && (0 <= k ==> Records(ops[k]))
    && (forall i :: k < i < |ops| ==> !Records(ops[i]))
  }

  ghost predicate WellFormed(def: Definition) {
    && 0 < |def.ops|
    && 1 <= def.version
    && NamesMatch(def.ops, def.names)
    && IsLastRecording(def.ops, def.outputIndex)
    && (forall i :: 0 <= i < |def.ops| && def.ops[i].Sleep? ==> 0 < def.ops[i].duration)
    && (forall i :: 0 <= i < |def.ops| && def.ops[i].Wait? ==> 0 < def.ops[i].timeout)
  }

  function StepKey(position: nat, name: string): string {
    Text.Decimal(position) + ":" + name
  }

  /** The context a worker builds from its in-memory values: only those below `p`. */
  function ContextFrom(def: Definition, id: RunId, input: Json, values: seq<Option<Json>>, p: nat): (sc: StepContext)
    requires p < |def.ops| && Records(def.ops[p])
    requires p <= |values|
    ensures |sc.values| == p
  {
    StepContext(id, def.name, StepKey(p, def.ops[p].name), input, values[..p], def.names)
  }

  function ValuesOf(checkpoints: map<nat, Json>, n: nat): (values: seq<Option<Json>>)
    ensures |values| == n
    ensures forall i :: 0 <= i < n ==> values[i] == if i in checkpoints then Some(checkpoints[i]) else None
  {
    seq(n, i requires 0 <= i < n => if i in checkpoints then Some(checkpoints[i]) else None)
  }

  /** The context that stored checkpoints determine for position `p`. */
  function ContextAt(def: Definition, id: RunId, input: Json, checkpoints: map<nat, Json>, p: nat): (sc: StepContext)
    requires p < |def.ops| && Records(def.ops[p])
    ensures |sc.values| == p
  {
    ContextFrom(def, id, input, ValuesOf(checkpoints, p), p)
  }

  /** Checkpoints at or above a position do not show in its context. */
  lemma ContextDependsBelow(def: Definition, id: RunId, input: Json, a: map<nat, Json>, b: map<nat, Json>, p: nat)
    requires p < |def.ops| && Records(def.ops[p])
    requires forall i :: 0 <= i < p ==> (i in a <==> i in b)
    requires forall i :: 0 <= i < p && i in a ==> a[i] == b[i]
    ensures ContextAt(def, id, input, a, p) == ContextAt(def, id, input, b, p)
  {
    assert ValuesOf(a, p) == ValuesOf(b, p);
  }

  /** A step reads a name successfully exactly when that name belongs to an earlier recording
      operation, and then it reads that operation's checkpoint. */
  lemma ContextReadsExactlyEarlier(def: Definition, id: RunId, input: Json, checkpoints: map<nat, Json>, p: nat, name: string)
    requires WellFormed(def) && p < |def.ops| && Records(def.ops[p])
    requires forall i :: 0 <= i < p && Records(def.ops[i]) ==> i in checkpoints
    ensures var read := ContextAt(def, id, input, checkpoints, p).Raw(name);
            && (read.Some? <==> exists i :: 0 <= i < p && Records(def.ops[i]) && def.ops[i].name == name)
            && (forall i :: 0 <= i < p && Records(def.ops[i]) && def.ops[i].name == name ==> read == Some(checkpoints[i]))
  {
    var sc := ContextAt(def, id, input, checkpoints, p);
    if name in def.names && def.names[name] < p {
      var i := def.names[name];
      assert Records(def.ops[i]) && def.ops[i].name == name;
      assert sc.Raw(name) == Some(checkpoints[i]);
    }
  }

  /** Keys handed to external systems identify the run and the position. */
  lemma IdempotencyKeysDiffer(id1: RunId, p1: nat, name1: string, id2: RunId, p2: nat, name2: string)
    requires ':' !in id1 && ':' !in id2
    requires id1 + ":" + StepKey(p1, name1) == id2 + ":" + StepKey(p2, name2)
    ensures id1 == id2 && p1 == p2 && name1 == name2
  {
    FirstColon(id1, StepKey(p1, name1), id2, StepKey(p2, name2));
    FirstColon(Text.Decimal(p1), name1, Text.Decimal(p2), name2);
    Text.DecimalRoundTrip(p1);
    Text.DecimalRoundTrip(p2);
  }

  lemma FirstColon(a1: string, b1: string, a2: string, b2: string)
    requires ':' !in a1 && ':' !in a2
    requires a1 + ":" + b1 == a2 + ":" + b2
    ensures a1 == a2 && b1 == b2
  {
    var s1 := a1 + ":" + b1;
    var s2 := a2 + ":" + b2;
    assert s1[|a1|] == ':' && s2[|a2|] == ':';
    assert |a1| == |a2|;
    assert a1 == s1[..|a1|] && a2 == s2[..|a2|];
    assert b1 == s1[|a1| + 1..] && b2 == s2[|a2| + 1..];
  }

  /** One uninterrupted left-to-right execution of the first `k` operations: steps compute
      their result from what came before, waits take the recorded outcome, sleeps leave nothing. */
  ghost function Interpret(def: Definition, id: RunId, input: Json, results: (nat, StepContext) -> Json,
                           outcomes: map<nat, Json>, k: nat): (values: seq<Option<Json>>)
    requires k <= |def.ops|
    ensures |values| == k
  {
    if k == 0 then []
    else
      var before := Interpret(def, id, input, results, outcomes, k - 1);
      before + [match def.ops[k - 1]
                case Step(_, _) => Some(results(k - 1, ContextFrom(def, id, input, before, k - 1)))
                case Sleep(_) => None
                case Wait(_, _, _) => if k - 1 in outcomes then Some(outcomes[k - 1]) else None]
  }

  /** The result of an interpretation is the value at the last recording position. */
  ghost function InterpretedOutput(def: Definition, values: seq<Option<Json>>): Option<Json>
    requires |values| == |def.ops| && -1 <= def.outputIndex < |def.ops|
  {
    if def.outputIndex < 0 then None else values[def.outputIndex]
  }

  /** Every step returns what `results` computes from its context, whenever it returns at all. */
  ghost predicate Deterministic(def: Definition, results: (nat, StepContext) -> Json) {
    forall p, sc, v :: 0 <= p < |def.ops| && def.ops[p].Step? && def.ops[p].may(sc, v) ==> v == results(p, sc)
  }

  /** Checkpoints justified one by one by their own contexts are the interpretation. */
  lemma {:induction false} JustifiedIsInterpreted(def: Definition, id: RunId, input: Json, results: (nat, StepContext) -> Json,
                                                  checkpoints: map<nat, Json>, k: nat)
    requires k <= |def.ops|
    requires Deterministic(def, results)
    requires forall p :: 0 <= p < k ==> (p in checkpoints <==> Records(def.ops[p]))
    requires forall p :: 0 <= p < k && def.ops[p].Step? ==> def.ops[p].may(ContextAt(def, id, input, checkpoints, p), checkpoints[p])
    ensures Interpret(def, id, input, results, checkpoints, k) == ValuesOf(checkpoints, k)
  {
    if k == 0 {
    } else {
      JustifiedIsInterpreted(def, id, input, results, checkpoints, k - 1);
      var before := Interpret(def, id, input, results, checkpoints, k - 1);
      assert before == ValuesOf(checkpoints, k - 1);
      if def.ops[k - 1].Step? {
        assert ContextFrom(def, id, input, before, k - 1) == ContextAt(def, id, input, checkpoints, k - 1);
        assert checkpoints[k - 1] == results(k - 1, ContextAt(def, id, input, checkpoints, k - 1));
      }
      assert ValuesOf(checkpoints, k) == before + [if k - 1 in checkpoints then Some(checkpoints[k - 1]) else None];
    }
  }
}
