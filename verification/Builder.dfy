/** Recording a workflow definition and compiling it. */
module Builder {
  import opened Basics
  import opened Workflow
  import Text

  datatype Result<+T> = Ok(value: T) | Error(message: string)

  /** What every builder call keeps: recording operations have distinct, trimmed, non-empty names that
      `names` remembers, and every sleep and wait has a positive length. */
  ghost predicate OpsOk(ops: seq<Op>, names: set<string>) {
    && (forall i :: 0 <= i < |ops| && Records(ops[i]) ==> ops[i].name in names && ops[i].name != "" && Text.IsTrimmed(ops[i].name))
    && (forall i, j :: 0 <= i < j < |ops| && Records(ops[i]) && Records(ops[j]) ==> ops[i].name != ops[j].name)
    && (forall i :: 0 <= i < |ops| && ops[i].Sleep? ==> 0 < ops[i].duration)
    && (forall i :: 0 <= i < |ops| && ops[i].Wait? ==> 0 < ops[i].timeout)
  }

  /** The name under which an operation is recorded, when there is one. */
  predicate NameFree(names: set<string>, name: string) {
    Text.Trim(name) != "" && Text.Trim(name) !in names
  }

  lemma OpAdded(ops: seq<Op>, names: set<string>, op: Op)
    requires OpsOk(ops, names)
    requires Records(op) ==> op.name !in names && op.name != "" && Text.IsTrimmed(op.name)
    requires op.Sleep? ==> 0 < op.duration
    requires op.Wait? ==> 0 < op.timeout
    ensures OpsOk(ops + [op], if Records(op) then names + {op.name} else names)
  {
  }

  lemma ConstantKey(op: Op, key: string)
    requires op.Wait? && key != "" && Text.IsTrimmed(key) && forall sc :: op.keyFn(sc) == Some(key)
    ensures forall sc :: Resolve(op, sc) == Some(key)
  {
    hide Text.Trim;
  }

  /** Each call answers whether it succeeded; the source panics where these answer false. */
  class Builder {
    var ops: seq<Op>
    var names: set<string>

    ghost predicate Valid()
      reads this
    {
      OpsOk(ops, names)
    }

    constructor ()
      ensures Valid() && ops == [] && names == {}
    {
      ops, names := [], {};
    }

    method AddName(name: string) returns (added: Option<string>)
      modifies `names
      ensures added == if NameFree(old(names), name) then Some(Text.Trim(name)) else None
      ensures names == if added.Some? then old(names) + {added.value} else old(names)
    {
      var trimmed := Text.Trim(name);
      if trimmed == "" || trimmed in names {
        return None;
      }
      names := names + {trimmed};
      return Some(trimmed);
    }

    /** A negative timeout is noticed only after the name was taken. */
    method Step(name: string, may: Option<(StepContext, Json) -> bool>, timeout: int) returns (ok: bool)
      requires Valid()
      modifies this
      ensures Valid() && ok == (may.Some? && NameFree(old(names), name) && timeout >= 0)
      ensures ops == if ok then old(ops) + [Op.Step(Text.Trim(name), may.value)] else old(ops)
      ensures names == if may.Some? && NameFree(old(names), name) then old(names) + {Text.Trim(name)} else old(names)
    {
      if may.None? {
        return false;
      }
      var added := AddName(name);
      if added.None? || timeout < 0 {
        return false;
      }
      OpAdded(ops, old(names), Op.Step(added.value, may.value));
      ops := ops + [Op.Step(added.value, may.value)];
      return true;
    }

    method Sleep(duration: int) returns (ok: bool)
      requires Valid()
      modifies this
      ensures Valid() && ok == (duration > 0) && names == old(names)
      ensures ops == if ok then old(ops) + [Op.Sleep(duration)] else old(ops)
    {
      if duration <= 0 {
        return false;
      }
      OpAdded(ops, names, Op.Sleep(duration));
      ops := ops + [Op.Sleep(duration)];
      return true;
    }

    method WaitEvent(name: string, key: string, timeout: int) returns (ok: bool)
      requires Valid()
      modifies this
      ensures Valid() && ok == (Text.Trim(key) != "" && timeout > 0 && NameFree(old(names), name))
      ensures !ok ==> ops == old(ops) && names == old(names)
      ensures ok ==> |ops| == |old(ops)| + 1 && ops[..|old(ops)|] == old(ops) && ops[|old(ops)|].Wait?
      ensures ok ==> ops[|old(ops)|].name == Text.Trim(name) && ops[|old(ops)|].timeout == timeout
      ensures ok ==> forall sc :: Resolve(ops[|old(ops)|], sc) == Some(Text.Trim(key))
    {
      hide OpsOk;
      var trimmed := Text.Trim(key);
      if trimmed == "" {
        return false;
      }
      ok := WaitEventFunc(name, Some(_ => Some(trimmed)), timeout);
      if ok {
        ConstantKey(ops[|old(ops)|], trimmed);
      }
    }

    method WaitEventFunc(name: string, keyFn: Option<StepContext -> Option<string>>, timeout: int) returns (ok: bool)
      requires Valid()
      modifies this
      ensures Valid() && ok == (keyFn.Some? && timeout > 0 && NameFree(old(names), name))
      ensures !ok ==> ops == old(ops) && names == old(names)
      ensures ok ==> ops == old(ops) + [Op.Wait(Text.Trim(name), keyFn.value, timeout)]
    {
      if keyFn.None? || timeout <= 0 {
        return false;
      }
      var added := AddName(name);
      if added.None? {
        return false;
      }
      OpAdded(ops, old(names), Op.Wait(added.value, keyFn.value, timeout));
      ops := ops + [Op.Wait(added.value, keyFn.value, timeout)];
      return true;
    }
  }

  /** compileWorkflow on what the build function recorded: the result is well formed, and every error is one
      of a missing name, a version below one and an empty definition. */
  method Compile(name: string, version: int, b: Builder) returns (r: Result<Definition>)
    requires b.Valid()
    ensures r.Ok? <==> Text.Trim(name) != "" && version >= 1 && b.ops != []
    ensures r.Ok? ==> WellFormed(r.value) && KeyOf(r.value) == WorkflowKey(Text.Trim(name), version) && r.value.ops == b.ops
  {
    var trimmed := Text.Trim(name);
    if trimmed == "" {
      return Error("workflow name is required");
    }
    if version < 1 {
      return Error("workflow version must be positive");
    }
    if b.ops == [] {
      return Error("workflow has no operations");
    }
    var names, outputIndex := Positions(b.ops, b.names);
    return Ok(Definition(trimmed, version, b.ops, names, outputIndex));
  }

  /** The loop of compileWorkflow. */
  method Positions(ops: seq<Op>, ghost taken: set<string>) returns (names: map<string, nat>, outputIndex: int)
    requires OpsOk(ops, taken)
    ensures NamesMatch(ops, names) && IsLastRecording(ops, outputIndex)
  {
    names, outputIndex := map[], -1;
    var i := 0;
    while i < |ops|
      invariant 0 <= i <= |ops| && -1 <= outputIndex < i
      invariant forall j :: 0 <= j < i && Records(ops[j]) ==> ops[j].name in names && names[ops[j].name] == j
      invariant forall n :: n in names ==> names[n] < i && Records(ops[names[n]]) && ops[names[n]].name == n
      invariant 0 <= outputIndex ==> Records(ops[outputIndex])
      invariant forall j :: outputIndex < j < i ==> !Records(ops[j])
    {
      match ops[i] {
        case Step(name, _) => names, outputIndex := names[name := i], i;
        case Wait(name, _, _) => names, outputIndex := names[name := i], i;
        case Sleep(_) =>
      }
      i := i + 1;
    }
  }
}
