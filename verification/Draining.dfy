/** WaitForIdle can always come to its end: once no worker runs, the claims left over can finish one by one. */
module Draining {
  import opened Dispatch
  import opened DispatchLimit

  /** On the way from `a`, with no worker running and this many active claims. */
  ghost predicate AllStopped(a: EngineState, e: EngineState, active: int) {
    Works(a, e) && EngineOk(e) && !e.running && e.active == active
  }

  /** What a claim of a stopped worker still has to do. */
  function StepsLeft(stage: Stage): nat {
    match stage
    case Counted => 6
    case Active => 5
    case Running => 4
    case Exited => 3
    case Released => 2
    case Uncounted => 1
  }

  lemma NoneStarting(e: EngineState, k: nat, id: Id)
    requires EngineOk(e) && !e.running && k < |e.workers| && id in e.workers[k].claims
    ensures !Starting(e.workers[k].claims[id].stage)
  {
    assert WorkerOk(e.max, e.registered, e.workers[k]);
  }

  function Cleanup(k: nat, id: Id, stage: Stage): Step {
    match stage
    case Running => Exit(k, id)
    case Exited => Step.Release(k, id)
    case Released => Uncount(k, id)
    case _ => Step.Finish(k, id)
  }

  lemma {:induction false} ClaimFinishes(a: EngineState, e: EngineState, k: nat, id: Id) returns (e': EngineState)
    requires AllStopped(a, e, e.active) && k < |e.workers| && id in e.workers[k].claims
    ensures AllStopped(a, e', e.active - 1) && e'.waiting == e.waiting
    decreases StepsLeft(e.workers[k].claims[id].stage)
  {
    hide Works, EngineOk;
    NoneStarting(e, k, id);
    var stage := e.workers[k].claims[id].stage;
    EngineStep(e, Cleanup(k, id, stage));
    e' := WorksNext(a, e, Cleanup(k, id, stage));
    if !stage.Uncounted? {
      e' := ClaimFinishes(a, e', k, id);
    }
  }

  lemma {:induction false} SomeClaim(workers: seq<WorkerState>) returns (k: nat, id: Id)
    requires Total(workers) > 0
    ensures k < |workers| && id in workers[k].claims
  {
    var n := |workers| - 1;
    if ActiveOf(workers[n]) != {} {
      id :| id in ActiveOf(workers[n]);
      k := n;
    } else {
      k, id := SomeClaim(workers[..n]);
    }
  }

  lemma {:induction false} Drains(a: EngineState, e: EngineState) returns (e': EngineState)
    requires AllStopped(a, e, e.active)
    ensures AllStopped(a, e', 0) && e'.waiting == e.waiting
    decreases e.active
  {
    assert e.active == Total(e.workers);
    hide Works, EngineOk;
    if e.active == 0 {
      e' := e;
    } else {
      var k, id := SomeClaim(e.workers);
      e' := ClaimFinishes(a, e, k, id);
      e' := Drains(a, e');
    }
  }

  /** In every reachable state in which no worker runs and nobody waits, WaitForIdle can be called, and there is a
      continuation in which it returns nil. */
  lemma WaitCanReturn(e: EngineState) returns (e': EngineState)
    requires Reached(e) && !e.running && !e.waiting
    ensures Enabled(e, WaitStarts) && Works(Apply(e, WaitStarts), e') && Enabled(e', WaitReturnsNil)
    ensures !Apply(e', WaitReturnsNil).waiting
  {
    ReachedOk(e);
    hide Works, EngineOk, Reached;
    EngineStep(e, WaitStarts);
    WorksItself(Apply(e, WaitStarts));
    e' := Drains(Apply(e, WaitStarts), Apply(e, WaitStarts));
  }
}
