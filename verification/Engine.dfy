/** The engine's registry and the calls a client makes on it. */
module Engine {
  import opened Basics
  import opened Workflow
  import opened Rows
  import opened Tables
  import opened Store
  import opened Builder
  import Text

  const DEFAULT_LEASE: nat := 30_000 * MILLISECOND
  const DEFAULT_HEARTBEAT: nat := 10_000 * MILLISECOND

  datatype Timing = Timing(ttl: nat, every: nat)

  /** The lease length and heartbeat interval New settles on: defaults for what is not positive, and an error
      unless the heartbeat is the shorter. */
  function Intervals(leaseTTL: int, heartbeat: int): (r: Result<Timing>)
    ensures r.Ok? ==> 0 < r.value.every < r.value.ttl
    ensures r.Ok? && leaseTTL > 0 ==> r.value.ttl == leaseTTL
    ensures r.Ok? && heartbeat > 0 ==> r.value.every == heartbeat
    ensures r.Ok? && leaseTTL <= 0 ==> r.value.ttl == 30_000_000_000
    ensures r.Ok? && heartbeat <= 0 ==> r.value.every == 10_000_000_000
    ensures r.Ok? <==> (if heartbeat > 0 then heartbeat else 10_000_000_000) < (if leaseTTL > 0 then leaseTTL else 30_000_000_000)
  {
    var ttl := if leaseTTL <= 0 then DEFAULT_LEASE else leaseTTL;
    var every := if heartbeat <= 0 then DEFAULT_HEARTBEAT else heartbeat;
    if every >= ttl then Error("HeartbeatInterval must be shorter than LeaseTTL") else Ok(Timing(ttl, every))
  }

  type Registry = map<WorkflowKey, Definition>

  ghost predicate RegistryOk(workflows: Registry) {
    forall k :: k in workflows ==> KeyOf(workflows[k]) == k && WellFormed(workflows[k])
  }

  /** `version` is the greatest registered version of `name`. */
  ghost predicate IsLatest(workflows: Registry, name: string, version: int) {
    && WorkflowKey(name, version) in workflows
    && forall k :: k in workflows && k.name == name ==> k.version <= version
  }

  ghost predicate Listed(names: seq<string>, versions: seq<int>, k: WorkflowKey) {
    exists i :: 0 <= i < |names| && i < |versions| && names[i] == k.name && versions[i] == k.version
  }

  lemma ListedAfter(names: seq<string>, versions: seq<int>, key: WorkflowKey, k: WorkflowKey)
    requires |names| == |versions|
    ensures Listed(names, versions, k) || k == key ==> Listed(names + [key.name], versions + [key.version], k)
  {
    var longer, more := names + [key.name], versions + [key.version];
    if Listed(names, versions, k) {
      var i :| 0 <= i < |names| && names[i] == k.name && versions[i] == k.version;
      assert longer[i] == k.name && more[i] == k.version;
    }
    assert longer[|names|] == key.name && more[|names|] == key.version;
  }

  ghost predicate HasName(workflows: Registry, name: string) {
    exists k :: k in workflows && k.name == name
  }

  /** What an enqueue asks for; an absent option keeps its default. */
  datatype Request = Request(name: string, version: int, queue: string, maxAttempts: int, at: Option<Time>, id: RunId,
                             idempotencyKey: string, input: Json)

  /** The version a request resolves to. */
  ghost predicate ResolvesTo(workflows: Registry, q: Request, key: WorkflowKey) {
    && key.name == q.name
    && if q.version == 0 then IsLatest(workflows, q.name, key.version) else q.version == key.version && key in workflows
  }

  predicate Sound(q: Request) {
    q.version >= 0 && Text.Trim(q.queue) != "" && q.maxAttempts > 0
  }

  ghost predicate Acceptable(workflows: Registry, q: Request) {
    Sound(q) && exists key :: ResolvesTo(workflows, q, key)
  }

  function IdOf(q: Request, generated: RunId): RunId {
    if q.id == "" then generated else q.id
  }

  function DedupOf(q: Request): Option<string> {
    if q.idempotencyKey == "" then None else Some(q.idempotencyKey)
  }

  /** A run already owns the workflow name and the idempotency key of the request. */
  ghost predicate Held(runs: map<RunId, Run>, q: Request) {
    Duplicate(runs, q.name, DedupOf(q))
  }

  datatype CancelOutcome = Cancels | AlreadyIn(state: RunState) | NotFound

  class Engine {
    var workflows: Registry
    const store: Store

    ghost predicate Valid()
      reads this
    {
      RegistryOk(workflows)
    }

    constructor (store: Store)
      ensures Valid() && workflows == map[] && this.store == store
    {
      workflows, this.store := map[], store;
    }

    /** Registers what a builder recorded; the source panics where this answers false. */
    method Register(name: string, version: int, b: Builder) returns (ok: bool)
      requires Valid() && b.Valid()
      modifies this
      ensures Valid()
      ensures ok <==> Text.Trim(name) != "" && version >= 1 && b.ops != [] && WorkflowKey(Text.Trim(name), version) !in old(workflows)
      ensures !ok ==> workflows == old(workflows)
      ensures ok ==> workflows.Keys == old(workflows).Keys + {WorkflowKey(Text.Trim(name), version)}
      ensures ok ==> workflows[WorkflowKey(Text.Trim(name), version)].ops == b.ops
      ensures forall k :: k in old(workflows) ==> k in workflows && workflows[k] == old(workflows)[k]
    {
      var compiled := Compile(name, version, b);
      if compiled.Error? {
        return false;
      }
      var key := KeyOf(compiled.value);
      if key in workflows {
        return false;
      }
      workflows := workflows[key := compiled.value];
      return true;
    }

    method LatestWorkflow(name: string) returns (latest: Option<Definition>)
      requires Valid()
      ensures latest.None? <==> !HasName(workflows, name)
      ensures latest.Some? ==> latest.value.name == name && IsLatest(workflows, name, latest.value.version) &&
                               workflows[WorkflowKey(name, latest.value.version)] == latest.value
    {
      latest := None;
      var rest := workflows.Keys;
      while rest != {}
        invariant rest <= workflows.Keys
        invariant latest.None? ==> forall k :: k in workflows && k !in rest ==> k.name != name
        invariant latest.Some? ==> KeyOf(latest.value) in workflows && workflows[KeyOf(latest.value)] == latest.value && latest.value.name == name
        invariant latest.Some? ==> forall k :: k in workflows && k !in rest && k.name == name ==> k.version <= latest.value.version
        decreases |rest|
      {
        var key :| key in rest;
        if key.name == name && (latest.None? || key.version > latest.value.version) {
          latest := Some(workflows[key]);
        }
        rest := rest - {key};
      }
    }

    /** The registered pairs, as the two parallel lists a claim sends. */
    method SupportedWorkflows() returns (names: seq<string>, versions: seq<int>)
      ensures |names| == |versions|
      ensures forall i :: 0 <= i < |names| ==> WorkflowKey(names[i], versions[i]) in workflows
      ensures forall k :: k in workflows ==> Listed(names, versions, k)
    {
      names, versions := [], [];
      var rest := workflows.Keys;
      while rest != {}
        invariant rest <= workflows.Keys && |names| == |versions|
        invariant forall i :: 0 <= i < |names| ==> WorkflowKey(names[i], versions[i]) in workflows
        invariant forall k :: k in workflows && k !in rest ==> Listed(names, versions, k)
        decreases |rest|
      {
        var key :| key in rest;
        forall k ensures Listed(names, versions, k) || k == key ==> Listed(names + [key.name], versions + [key.version], k) {
          ListedAfter(names, versions, key, k);
        }
        names, versions := names + [key.name], versions + [key.version];
        rest := rest - {key};
      }
    }

    /** Enqueue: `generated` is the identifier to use when the request names none. */
    method Enqueue(q: Request, generated: RunId, now: Time) returns (r: Option<RunId>)
      requires Valid()
      modifies store`runs
      ensures !Acceptable(workflows, q) ==> r.None?
      ensures r.None? ==> store.runs == old(store.runs)
      ensures Acceptable(workflows, q) && Held(old(store.runs), q) ==>
                r.Some? && store.runs == old(store.runs) && r.value in store.runs && SameDedup(store.runs[r.value], q.name, DedupOf(q))
      ensures Acceptable(workflows, q) && !Held(old(store.runs), q) ==>
                if IdOf(q, generated) in old(store.runs) then r.None?
                else exists key :: ResolvesTo(workflows, q, key) && r == Some(IdOf(q, generated)) &&
                       store.runs == old(store.runs)[IdOf(q, generated) :=
                         Inserted(key, Text.Trim(q.queue), q.maxAttempts, if q.at.Some? then q.at.value else now, q.input, DedupOf(q))]
      ensures r.Some? && r.value !in old(store.runs) ==>
                && r.value == (if q.id == "" then generated else q.id) && r.value in store.runs
                && var run := store.runs[r.value];
                   && ResolvesTo(workflows, q, run.workflow) && run.queue == Text.Trim(q.queue) && run.maxAttempts == q.maxAttempts
                   && run.input == q.input && run.dedup == (if q.idempotencyKey == "" then None else Some(q.idempotencyKey))
                   && run.state.Ready? && run.nextRunAt == (if q.at.Some? then q.at.value else now) && run.cursor == 0 && run.checkpoints == map[]
    {
      r := None;
      if q.version < 0 {
        return;
      }
      var wf := None;
      if q.version == 0 {
        wf := LatestWorkflow(q.name);
      } else if WorkflowKey(q.name, q.version) in workflows {
        wf := Some(workflows[WorkflowKey(q.name, q.version)]);
      }
      if wf.None? {
        return;
      }
      assert ResolvesTo(workflows, q, KeyOf(wf.value));
      var queue := Text.Trim(q.queue);
      if queue == "" || q.maxAttempts <= 0 {
        return;
      }
      var id := q.id;
      if id == "" {
        id := generated;
      }
      var dedup := None;
      if q.idempotencyKey != "" {
        dedup := Some(q.idempotencyKey);
      }
      r := store.InsertRun(id, KeyOf(wf.value), queue, q.maxAttempts, q.at, now, q.input, dedup);
    }

    /** Cancel: a finished run keeps its state, which is what the caller is told. */
    method Cancel(id: RunId) returns (outcome: CancelOutcome)
      modifies store`runs
      ensures id !in old(store.runs) ==> outcome == NotFound && store.runs == old(store.runs)
      ensures id in old(store.runs) && old(store.runs)[id].state.Terminal() ==>
                outcome == AlreadyIn(old(store.runs)[id].state) && store.runs == old(store.runs)
      ensures id in old(store.runs) && !old(store.runs)[id].state.Terminal() ==>
                outcome == Cancels && store.runs == old(store.runs)[id := Rows.Cancel(old(store.runs)[id])] && store.runs[id].state == Cancelled
    {
      var rows := store.CancelRun(id);
      if rows > 0 {
        return Cancels;
      }
      if id !in store.runs {
        return NotFound;
      }
      assert store.runs == old(store.runs);
      return AlreadyIn(store.runs[id].state);
    }
  }
}
