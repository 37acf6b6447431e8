/** When MaxConcurrency bounds the whole engine: exactly when each worker begins with nothing in flight. */
module DispatchLimit {
  import opened Workflow
  import opened Dispatch

  /** Claims in flight under all workers. */
  function Flying(workers: seq<WorkerState>): int {
    if workers == [] then 0 else Flying(workers[..|workers| - 1]) + workers[|workers| - 1].inFlight
  }

  lemma {:induction false} FlyingOnlyLast(workers: seq<WorkerState>)
    requires workers != [] && forall k :: 0 <= k < |workers| - 1 ==> workers[k].inFlight == 0
    ensures Flying(workers) == workers[|workers| - 1].inFlight
  {
    if |workers| == 1 {
      assert workers[..0] == [];
    } else {
      FlyingOnlyLast(workers[..|workers| - 1]);
    }
  }

  lemma {:induction false} NoneFlying(workers: seq<WorkerState>)
    requires forall k :: 0 <= k < |workers| ==> workers[k].inFlight >= 0
    ensures Flying(workers) >= 0
    ensures Flying(workers) == 0 ==> forall k :: 0 <= k < |workers| ==> workers[k].inFlight == 0
  {
    if workers == [] {
    } else {
      NoneFlying(workers[..|workers| - 1]);
    }
  }

  /* ---- at most the limit, when every worker begins on an empty engine ---- */

  /** Only the latest worker has claims in flight. */
  ghost predicate OnlyLastFlies(e: EngineState) {
    forall k :: 0 <= k < |e.workers| - 1 ==> e.workers[k].inFlight == 0
  }

  lemma OthersLand(e: EngineState, s: Step)
    requires EngineOk(e) && Enabled(e, s) && OnlyLastFlies(e) && (s.BeginWorker? ==> Flying(e.workers) == 0)
    ensures OnlyLastFlies(Apply(e, s))
  {
    assert forall k :: 0 <= k < |e.workers| ==> WorkerOk(e.max, e.registered, e.workers[k]);
    hide EngineOk, WorkerOk, Apply;
    CountersMove(e, s);
    if s.BeginWorker? {
      forall k | 0 <= k < |e.workers| ensures e.workers[k].inFlight >= 0 {
        CountsUp(e.max, e.registered, e.workers[k]);
      }
      NoneFlying(e.workers);
    } else if s.Uncount? {
      StillFlying(e.max, e.registered, e.workers[s.worker], s.id);
    }
  }

  /** Which step moves which counter. */
  lemma CountersMove(e: EngineState, s: Step)
    requires Enabled(e, s)
    ensures |Apply(e, s).workers| == |e.workers| + (if s.BeginWorker? then 1 else 0)
    ensures forall k :: 0 <= k < |e.workers| && Apply(e, s).workers[k].inFlight != e.workers[k].inFlight ==>
              (s.Count? && k == |e.workers| - 1) || (s.Uncount? && s.worker == k)
  {
  }

  lemma CountsUp(max: nat, registered: set<WorkflowKey>, w: WorkerState)
    requires WorkerOk(max, registered, w)
    ensures w.inFlight >= 0
  {
  }

  lemma StillFlying(max: nat, registered: set<WorkflowKey>, w: WorkerState, id: Id)
    requires WorkerOk(max, registered, w) && id in w.claims && !w.claims[id].stage.Uncounted?
    ensures w.inFlight != 0
  {
    assert id in InFlight(w);
  }

  lemma WithinLimit(e: EngineState)
    requires EngineOk(e) && OnlyLastFlies(e)
    ensures Flying(e.workers) <= e.max
  {
    if e.workers != [] {
      FlyingOnlyLast(e.workers);
      assert WorkerOk(e.max, e.registered, Last(e));
    }
  }

  lemma {:induction false} LimitKept(engines: seq<EngineState>, steps: seq<Step>, i: nat)
    requires IsRun(engines, steps) && i < |engines|
    requires forall k :: 0 <= k < |steps| && steps[k].BeginWorker? ==> Flying(engines[k].workers) == 0
    ensures OnlyLastFlies(engines[i])
  {
    hide Enabled, Apply;
    if i == 0 {
      assert engines[0].workers == [];
    } else {
      LimitKept(engines, steps, i - 1);
      EveryStateOk(engines, steps, i - 1);
      OthersLand(engines[i - 1], steps[i - 1]);
    }
  }

  /** If every worker begins when nothing is in flight, the limit bounds all claims of the engine, in every state. */
  lemma EngineLimit(engines: seq<EngineState>, steps: seq<Step>, i: nat)
    requires IsRun(engines, steps) && i < |engines|
    requires forall k :: 0 <= k < |steps| && steps[k].BeginWorker? ==> Flying(engines[k].workers) == 0
    ensures Flying(engines[i].workers) <= engines[i].max
  {
    LimitKept(engines, steps, i);
    EveryStateOk(engines, steps, i);
    WithinLimit(engines[i]);
  }

  /** WaitForIdle is enough: with no active claim and no worker running, nothing is in flight. */
  lemma NoActiveNoneFlying(e: EngineState)
    requires EngineOk(e) && !e.running && e.active == 0
    ensures Flying(e.workers) == 0
  {
    TotalZero(e.workers);
    forall k | 0 <= k < |e.workers| ensures e.workers[k].inFlight == 0 {
      var w := e.workers[k];
      assert WorkerOk(e.max, e.registered, w) && ActiveOf(w) == {};
      assert InFlight(w) == {} by {
        assert forall id :: id in w.claims ==> id in ActiveOf(w);
      }
    }
    AllLanded(e.workers);
  }

  lemma {:induction false} AllLanded(workers: seq<WorkerState>)
    requires forall k :: 0 <= k < |workers| ==> workers[k].inFlight == 0
    ensures Flying(workers) == 0
  {
    if workers == [] {
    } else {
      AllLanded(workers[..|workers| - 1]);
    }
  }

  /** So the limit bounds the engine when each StartWorker follows a WaitForIdle that returned nil, or is the first. */
  lemma LimitAfterIdle(engines: seq<EngineState>, steps: seq<Step>, i: nat)
    requires IsRun(engines, steps) && i < |engines|
    requires forall k :: 0 <= k < |steps| && steps[k].BeginWorker? ==> engines[k].active == 0
    ensures Flying(engines[i].workers) <= engines[i].max
  {
    forall k | 0 <= k < |steps| && steps[k].BeginWorker? ensures Flying(engines[k].workers) == 0 {
      EveryStateOk(engines, steps, k);
      assert Enabled(engines[k], steps[k]);
      NoActiveNoneFlying(engines[k]);
    }
    EngineLimit(engines, steps, i);
  }

  /* ---- and more than the limit otherwise ---- */

  /** One worker's work: steps from `a` to `b` in which no worker begins. */
  ghost predicate IsWork(engines: seq<EngineState>, steps: seq<Step>, a: EngineState, b: EngineState) {
    && |engines| == |steps| + 1 && engines[0] == a && engines[|steps|] == b
    && forall i :: 0 <= i < |steps| ==> !steps[i].BeginWorker? && Enabled(engines[i], steps[i]) && engines[i + 1] == Apply(engines[i], steps[i])
  }

  ghost predicate Works(a: EngineState, b: EngineState) {
    exists engines, steps :: IsWork(engines, steps, a, b)
  }

  lemma WorksItself(e: EngineState)
    ensures Works(e, e)
  {
    assert IsWork([e], [], e, e);
  }

  lemma WorksNext(a: EngineState, b: EngineState, s: Step) returns (c: EngineState)
    requires Works(a, b) && Enabled(b, s) && !s.BeginWorker?
    ensures Works(a, c) && c == Apply(b, s)
  {
    hide Enabled, Apply;
    var engines, steps :| IsWork(engines, steps, a, b);
    c := Apply(b, s);
    var longer, more := engines + [c], steps + [s];
    forall i | 0 <= i < |more| ensures !more[i].BeginWorker? && Enabled(longer[i], more[i]) && longer[i + 1] == Apply(longer[i], more[i]) {
      if i < |steps| {
        assert more[i] == steps[i];
      }
    }
    assert IsWork(longer, more, a, c);
  }

  /** Only the latest worker of `e'` differs from `e`. */
  ghost predicate OnlyLastDiffers(e: EngineState, e': EngineState) {
    && e'.max == e.max && e'.running == e.running && e.registered <= e'.registered && |e'.workers| == |e.workers|
    && forall k :: 0 <= k < |e.workers| - 1 ==> e'.workers[k] == e.workers[k]
  }

  /** The dispatcher of the latest worker is idle, and its claims are numbered below `n`. */
  ghost predicate Ready(e: EngineState, n: nat) {
    Dispatches(e) && Last(e).dispatcher.Idle? && e.registered != {} && forall id :: id in Last(e).claims ==> id < n
  }

  /** A worker below its limit takes and counts one more row. */
  lemma CountsOne(a: EngineState, e: EngineState, n: nat) returns (e': EngineState)
    requires Works(a, e) && Ready(e, n) && Last(e).inFlight < e.max
    ensures Works(a, e') && OnlyLastDiffers(e, e') && Dispatches(e')
    ensures Last(e').inFlight == Last(e).inFlight + 1 && (forall id :: id in Last(e').claims ==> id < n + 1)
    ensures AtLast(e', Counted) && |Last(e').dispatcher.rows| == 1 && e'.registered == e.registered
  {
    hide Works;
    var key :| key in e.registered;
    e' := WorksNext(a, e, StartDispatch);
    e' := WorksNext(a, e', ClaimReturns([key]));
    e' := WorksNext(a, e', Count(n));
  }

  /** and starts it. */
  lemma StartsOne(a: EngineState, e: EngineState, n: nat) returns (e': EngineState)
    requires Works(a, e) && Dispatches(e) && AtLast(e, Counted) && |Last(e).dispatcher.rows| == 1 && e.registered != {}
    requires forall id :: id in Last(e).claims ==> id < n
    ensures Works(a, e') && OnlyLastDiffers(e, e') && Ready(e', n) && Last(e').inFlight == Last(e).inFlight
  {
    hide Works;
    e' := WorksNext(a, e, Activate);
    e' := WorksNext(a, e', Insert);
  }

  lemma {:induction false} FillsUp(a: EngineState, e: EngineState, n: nat) returns (e': EngineState)
    requires Works(a, e) && Ready(e, n) && Last(e).inFlight <= e.max
    ensures Works(a, e') && OnlyLastDiffers(e, e') && Dispatches(e') && Last(e').dispatcher.Idle? && Last(e').inFlight == e'.max
    decreases e.max - Last(e).inFlight
  {
    hide Works;
    if Last(e).inFlight == e.max {
      e' := e;
    } else {
      var one := CountsOne(a, e, n);
      one := StartsOne(a, one, n + 1);
      e' := FillsUp(a, one, n + 1);
    }
  }

  lemma FlyingUnder(workers: seq<WorkerState>, more: seq<WorkerState>)
    requires |more| == |workers| + 1 && more[..|workers|] == workers
    ensures Flying(more) == Flying(workers) + more[|workers|].inFlight
  {
  }

  /** A worker that begins while a claim is in flight can take the engine over its limit, all by itself. */
  lemma LimitExceeded(e: EngineState, key: WorkflowKey) returns (e': EngineState)
    requires EngineOk(e) && Enabled(e, BeginWorker) && Flying(e.workers) > 0
    ensures Works(Apply(e, BeginWorker), e') && e'.max == e.max && Flying(e'.workers) > e'.max
  {
    hide Works;
    var a := Apply(e, BeginWorker);
    WorksItself(a);
    var known := WorksNext(a, a, Register(key));
    e' := FillsUp(a, known, 0);
    assert e'.workers[..|e.workers|] == e.workers;
    FlyingUnder(e.workers, e'.workers);
  }

  /** Exactly then: a worker that begins stays within the engine-wide limit, whatever it and the claims left over do,
      if and only if nothing is in flight when it begins. */
  lemma LimitIffNoneFlying(e: EngineState, key: WorkflowKey)
    requires Reached(e) && Enabled(e, BeginWorker)
    ensures (forall e' :: Works(Apply(e, BeginWorker), e') ==> Flying(e'.workers) <= e'.max) <==> Flying(e.workers) == 0
  {
    ReachedOk(e);
    if Flying(e.workers) == 0 {
      forall e' | Works(Apply(e, BeginWorker), e') ensures Flying(e'.workers) <= e'.max {
        BegunWithin(e, e');
      }
    } else {
      NoneFlying(e.workers) by {
        assert forall k :: 0 <= k < |e.workers| ==> WorkerOk(e.max, e.registered, e.workers[k]);
      }
      var over := LimitExceeded(e, key);
    }
  }

  lemma ReachedOk(e: EngineState)
    requires Reached(e)
    ensures EngineOk(e)
  {
    var engines, steps :| EndsAt(engines, steps, e);
    EveryStateOk(engines, steps, |steps|);
  }

  lemma BegunWithin(e: EngineState, e': EngineState)
    requires EngineOk(e) && Enabled(e, BeginWorker) && Flying(e.workers) == 0 && Works(Apply(e, BeginWorker), e')
    ensures Flying(e'.workers) <= e'.max
  {
    var a := Apply(e, BeginWorker);
    EngineStep(e, BeginWorker);
    NoneFlying(e.workers) by {
      assert forall k :: 0 <= k < |e.workers| ==> WorkerOk(e.max, e.registered, e.workers[k]);
    }
    assert OnlyLastFlies(a);
    var engines, steps :| IsWork(engines, steps, a, e');
    WorkWithin(engines, steps, a, e', |steps|);
    WithinLimit(e');
  }

  lemma {:induction false} WorkWithin(engines: seq<EngineState>, steps: seq<Step>, a: EngineState, b: EngineState, i: nat)
    requires IsWork(engines, steps, a, b) && EngineOk(a) && OnlyLastFlies(a) && i <= |steps|
    ensures EngineOk(engines[i]) && OnlyLastFlies(engines[i])
  {
    hide EngineOk, Enabled, Apply;
    if i == 0 {
    } else {
      WorkWithin(engines, steps, a, b, i - 1);
      EngineStep(engines[i - 1], steps[i - 1]);
      OthersLand(engines[i - 1], steps[i - 1]);
    }
  }

  /* ---- a concrete case ---- */

  lemma Takes(e: EngineState, s: Step) returns (e': EngineState)
    requires Reached(e) && Enabled(e, s)
    ensures Reached(e') && e' == Apply(e, s)
  {
    hide Enabled, Apply;
    var engines, steps :| EndsAt(engines, steps, e);
    e' := Apply(e, s);
    var longer, more := engines + [e'], steps + [s];
    forall i | 0 <= i < |more| ensures Enabled(longer[i], more[i]) && longer[i + 1] == Apply(longer[i], more[i]) {
      if i < |steps| {
        assert more[i] == steps[i];
      }
    }
    assert EndsAt(longer, more, e');
  }

  lemma {:induction false} ReachedByWork(engines: seq<EngineState>, steps: seq<Step>, a: EngineState, b: EngineState, i: nat)
    requires Reached(a) && IsWork(engines, steps, a, b) && i <= |steps|
    ensures Reached(engines[i])
  {
    hide Reached, Enabled, Apply;
    if i == 0 {
    } else {
      ReachedByWork(engines, steps, a, b, i - 1);
      var next := Takes(engines[i - 1], steps[i - 1]);
    }
  }

  lemma WorkReaches(a: EngineState, b: EngineState)
    requires Reached(a) && Works(a, b)
    ensures Reached(b)
  {
    hide Reached;
    var engines, steps :| IsWork(engines, steps, a, b);
    ReachedByWork(engines, steps, a, b, |steps|);
  }

  lemma OneRunning(key: WorkflowKey) returns (e: EngineState)
    ensures Reached(e) && e.max == 1 && |e.workers| == 1 && Dispatches(e) && Last(e).dispatcher.Idle? && Last(e).inFlight == 1
  {
    e := Init(1);
    assert EndsAt([e], [], e);
    hide Reached, Works;
    e := Takes(e, Register(key));
    e := Takes(e, BeginWorker);
    WorksItself(e);
    var full := FillsUp(e, e, 0);
    WorkReaches(e, full);
    e := full;
  }

  /** Under a limit of one, a drain that times out leaves a claim running. */
  lemma DrainLeavesClaim(key: WorkflowKey) returns (e: EngineState)
    ensures Reached(e) && Enabled(e, BeginWorker) && e.max == 1 && Flying(e.workers) == 1
  {
    hide Reached;
    e := OneRunning(key);
    ReachedOk(e);
    assert !e.waiting;
    hide EngineOk;
    e := Takes(e, StopDispatch);
    e := Takes(e, EndWorker);
    FlyingOnlyLast(e.workers);
  }

  /** The limit is one worker's: claims that outlive a drain run beside those of the next worker. */
  lemma LimitIsPerWorker(key: WorkflowKey) returns (e: EngineState)
    ensures Reached(e) && e.max == 1 && Flying(e.workers) > e.max
  {
    hide Reached, Works;
    var left := DrainLeavesClaim(key);
    ReachedOk(left);
    var begun := Takes(left, BeginWorker);
    e := LimitExceeded(left, key);
    WorkReaches(begun, e);
  }
}
