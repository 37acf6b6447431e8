/** Dispatch, claim completion and WaitForIdle as interleaved steps on the engine's counters. */
module Dispatch {
  import opened Basics
  import opened Workflow

  type Id = nat

  /** How far a claim got, in the order of dispatch and of its deferred clean-up. */
  datatype Stage = Counted | Active | Running | Exited | Released | Uncounted

  datatype HeldClaim = HeldClaim(workflow: WorkflowKey, stage: Stage)

  /** The one dispatching goroutine of a worker. `Adding` still has these rows to start. */
  datatype Dispatcher =
    | Idle
    | Claiming(available: nat, supported: set<WorkflowKey>)
    | Adding(rows: seq<WorkflowKey>, current: Option<Id>)
    | Returned

  /** What one StartWorker call owns. */
  datatype WorkerState = WorkerState(dispatcher: Dispatcher, claims: map<Id, HeldClaim>, inFlight: int, entries: set<Id>)

  /** The engine: `active` is the activeClaims counter, `running` the workerRunning flag, and `waiting`
      says that WaitForIdle holds the worker mutex. */
  datatype EngineState = EngineState(max: nat, registered: set<WorkflowKey>, workers: seq<WorkerState>, active: int, running: bool, waiting: bool)

  function Init(max: nat): EngineState {
    EngineState(max, {}, [], 0, false, false)
  }

  datatype Step =
    | Register(key: WorkflowKey)
    | BeginWorker
    | EndWorker
    | WaitStarts
    | WaitReturnsNil
    | WaitGivesUp
    | StartDispatch
    | ClaimFails
    | ClaimReturns(rows: seq<WorkflowKey>)
    | Count(id: Id)
    | Activate
    | Insert
    | StopDispatch
    | Exit(worker: nat, id: Id)
    | Release(worker: nat, id: Id)
    | Uncount(worker: nat, id: Id)
    | Finish(worker: nat, id: Id)

  /** The worker that dispatches, if any: the latest one. */
  predicate Dispatches(e: EngineState) {
    e.running && e.workers != []
  }

  function Last(e: EngineState): WorkerState
    requires e.workers != []
  {
    e.workers[|e.workers| - 1]
  }

  predicate At(e: EngineState, w: nat, id: Id, stage: Stage) {
    w < |e.workers| && id in e.workers[w].claims && e.workers[w].claims[id].stage == stage
  }

  predicate AtLast(e: EngineState, stage: Stage) {
    && Dispatches(e) && Last(e).dispatcher.Adding? && Last(e).dispatcher.rows != [] && Last(e).dispatcher.current.Some?
    && At(e, |e.workers| - 1, Last(e).dispatcher.current.value, stage)
  }

  /** beginWorker and endWorker need the mutex WaitForIdle holds; everything else runs freely. */
  predicate Enabled(e: EngineState, s: Step) {
    match s
    case Register(_) => true
    case BeginWorker => !e.running && !e.waiting
    case EndWorker => Dispatches(e) && !e.waiting && Last(e).dispatcher.Returned?
    case WaitStarts => !e.running && !e.waiting
    case WaitReturnsNil => e.waiting && e.active == 0
    case WaitGivesUp => e.waiting
    case StartDispatch => Dispatches(e) && Last(e).dispatcher.Idle? && e.max - Last(e).inFlight > 0 && e.registered != {}
    case ClaimFails => Dispatches(e) && Last(e).dispatcher.Claiming?
    case ClaimReturns(rows) =>
      && Dispatches(e) && Last(e).dispatcher.Claiming? && |rows| <= Last(e).dispatcher.available
      && forall k :: k in rows ==> k in Last(e).dispatcher.supported
    case Count(id) =>
      && Dispatches(e) && Last(e).dispatcher.Adding? && Last(e).dispatcher.current.None? && Last(e).dispatcher.rows != []
      && id !in Last(e).claims
    case Activate => AtLast(e, Counted)
    case Insert => AtLast(e, Active)
    case StopDispatch => Dispatches(e) && Last(e).dispatcher.Idle?
    case Exit(w, id) => At(e, w, id, Running)
    case Release(w, id) => At(e, w, id, Exited)
    case Uncount(w, id) => At(e, w, id, Released)
    case Finish(w, id) => At(e, w, id, Uncounted)
  }

  function WithWorker(e: EngineState, w: nat, worker: WorkerState): EngineState
    requires w < |e.workers|
  {
    e.(workers := e.workers[w := worker])
  }

  function WithLast(e: EngineState, worker: WorkerState): EngineState
    requires e.workers != []
  {
    WithWorker(e, |e.workers| - 1, worker)
  }

  function ToStage(worker: WorkerState, id: Id, stage: Stage): WorkerState
    requires id in worker.claims
  {
    worker.(claims := worker.claims[id := worker.claims[id].(stage := stage)])
  }

  function Apply(e: EngineState, s: Step): EngineState
    requires Enabled(e, s)
  {
    match s
    case Register(key) => e.(registered := e.registered + {key})
    case BeginWorker => e.(running := true, workers := e.workers + [WorkerState(Idle, map[], 0, {})])
    case EndWorker => e.(running := false)
    case WaitStarts => e.(waiting := true)
    case WaitReturnsNil => e.(waiting := false)
    case WaitGivesUp => e.(waiting := false)
    case StartDispatch => WithLast(e, Last(e).(dispatcher := Claiming(e.max - Last(e).inFlight, e.registered)))
    case ClaimFails => WithLast(e, Last(e).(dispatcher := Idle))
    case ClaimReturns(rows) => WithLast(e, Last(e).(dispatcher := if rows == [] then Idle else Adding(rows, None)))
    case Count(id) =>
      var worker := Last(e);
      WithLast(e, worker.(inFlight := worker.inFlight + 1, dispatcher := worker.dispatcher.(current := Some(id)),
                          claims := worker.claims[id := HeldClaim(worker.dispatcher.rows[0], Counted)]))
    case Activate =>
      WithLast(e, ToStage(Last(e), Last(e).dispatcher.current.value, Active)).(active := e.active + 1)
    case Insert =>
      var worker := Last(e);
      var id := worker.dispatcher.current.value;
      var rest := worker.dispatcher.rows[1..];
      WithLast(e, ToStage(worker, id, Running).(entries := worker.entries + {id}, dispatcher := if rest == [] then Idle else Adding(rest, None)))
    case StopDispatch => WithLast(e, Last(e).(dispatcher := Returned))
    case Exit(w, id) => WithWorker(e, w, ToStage(e.workers[w], id, Exited))
    case Release(w, id) => WithWorker(e, w, ToStage(e.workers[w], id, Released).(entries := e.workers[w].entries - {id}))
    case Uncount(w, id) => WithWorker(e, w, ToStage(e.workers[w], id, Uncounted).(inFlight := e.workers[w].inFlight - 1))
    case Finish(w, id) => WithWorker(e, w, e.workers[w].(claims := e.workers[w].claims - {id})).(active := e.active - 1)
  }

  /* ---- what every step keeps ---- */

  function InFlight(w: WorkerState): set<Id> {
    set id | id in w.claims && !w.claims[id].stage.Uncounted?
  }

  function ActiveOf(w: WorkerState): set<Id> {
    set id | id in w.claims && !w.claims[id].stage.Counted?
  }

  function Total(workers: seq<WorkerState>): nat {
    if workers == [] then 0 else Total(workers[..|workers| - 1]) + |ActiveOf(workers[|workers| - 1])|
  }

  /** Being started: counted but not yet running. Only the dispatcher's current claim is. */
  predicate Starting(stage: Stage) {
    stage.Counted? || stage.Active?
  }

  ghost predicate DispatcherOk(max: nat, registered: set<WorkflowKey>, w: WorkerState) {
    match w.dispatcher
    case Claiming(available, supported) => w.inFlight + available <= max && supported <= registered
    case Adding(rows, current) =>
      && rows != [] && (forall k :: k in rows ==> k in registered)
      && w.inFlight + |rows| - (if current.Some? then 1 else 0) <= max
      && (current.Some? ==> current.value in w.claims && Starting(w.claims[current.value].stage))
    case _ => true
  }

  ghost predicate WorkerOk(max: nat, registered: set<WorkflowKey>, w: WorkerState) {
    && w.inFlight == |InFlight(w)| <= max
    && (forall id :: id in w.entries <==> id in w.claims && (w.claims[id].stage.Running? || w.claims[id].stage.Exited?))
    && (forall id :: id in w.claims ==> w.claims[id].workflow in registered)
    && (forall id :: id in w.claims && Starting(w.claims[id].stage) ==> w.dispatcher.Adding? && w.dispatcher.current == Some(id))
    && DispatcherOk(max, registered, w)
  }

  ghost predicate EngineOk(e: EngineState) {
    && (forall i :: 0 <= i < |e.workers| ==> WorkerOk(e.max, e.registered, e.workers[i]))
    && (forall i :: 0 <= i < |e.workers| && (!e.running || i < |e.workers| - 1) ==> e.workers[i].dispatcher.Returned?)
    && e.active == Total(e.workers)
    && (e.waiting ==> !e.running)
  }

  lemma {:induction false} TotalUpdate(workers: seq<WorkerState>, i: nat, w: WorkerState)
    requires i < |workers|
    ensures Total(workers[i := w]) == Total(workers) - |ActiveOf(workers[i])| + |ActiveOf(w)|
  {
    var n := |workers| - 1;
    if i < n {
      TotalUpdate(workers[..n], i, w);
      assert workers[i := w][..n] == workers[..n][i := w];
    } else {
      assert workers[i := w][..n] == workers[..n];
    }
  }

  lemma {:induction false} TotalZero(workers: seq<WorkerState>)
    requires Total(workers) == 0
    ensures forall i :: 0 <= i < |workers| ==> ActiveOf(workers[i]) == {}
  {
    if workers == [] {
    } else {
      TotalZero(workers[..|workers| - 1]);
    }
  }

  /** Replacing one worker by another that is as good keeps the engine's invariant. */
  lemma WorkerReplaced(e: EngineState, i: nat, w: WorkerState, active: int)
    requires EngineOk(e) && i < |e.workers| && WorkerOk(e.max, e.registered, w)
    requires !e.running || i < |e.workers| - 1 ==> w.dispatcher.Returned?
    requires active == e.active - |ActiveOf(e.workers[i])| + |ActiveOf(w)|
    ensures EngineOk(WithWorker(e, i, w).(active := active))
  {
    hide WorkerOk;
    TotalUpdate(e.workers, i, w);
  }

  /* ---- steps of one worker ---- */

  lemma DispatcherMoves(max: nat, registered: set<WorkflowKey>, w: WorkerState, w': WorkerState)
    requires WorkerOk(max, registered, w) && w' == w.(dispatcher := w'.dispatcher) && DispatcherOk(max, registered, w')
    requires !w.dispatcher.Adding? && (w'.dispatcher.Adding? ==> w'.dispatcher.current.None?)
    ensures WorkerOk(max, registered, w') && ActiveOf(w') == ActiveOf(w)
  {
    assert InFlight(w') == InFlight(w);
  }

  lemma Counts(max: nat, registered: set<WorkflowKey>, w: WorkerState, id: Id, w': WorkerState)
    requires WorkerOk(max, registered, w) && w.dispatcher.Adding? && w.dispatcher.current.None? && id !in w.claims
    requires w' == w.(inFlight := w.inFlight + 1, dispatcher := w.dispatcher.(current := Some(id)),
                      claims := w.claims[id := HeldClaim(w.dispatcher.rows[0], Counted)])
    ensures WorkerOk(max, registered, w') && ActiveOf(w') == ActiveOf(w)
  {
    assert InFlight(w') == InFlight(w) + {id};
  }

  lemma Activates(max: nat, registered: set<WorkflowKey>, w: WorkerState, id: Id)
    requires WorkerOk(max, registered, w) && id in w.claims && w.claims[id].stage.Counted?
    ensures WorkerOk(max, registered, ToStage(w, id, Active)) && |ActiveOf(ToStage(w, id, Active))| == |ActiveOf(w)| + 1
  {
    var w' := ToStage(w, id, Active);
    assert InFlight(w') == InFlight(w) && ActiveOf(w') == ActiveOf(w) + {id};
  }

  lemma EntryInserted(max: nat, registered: set<WorkflowKey>, w: WorkerState, id: Id, w': WorkerState)
    requires WorkerOk(max, registered, w) && id in w.claims && w.claims[id].stage.Active?
    requires w.dispatcher.Adding? && w.dispatcher.current == Some(id)
    requires var rest := w.dispatcher.rows[1..];
             w' == ToStage(w, id, Running).(entries := w.entries + {id}, dispatcher := if rest == [] then Idle else Adding(rest, None))
    ensures WorkerOk(max, registered, w') && ActiveOf(w') == ActiveOf(w)
  {
    assert InFlight(w') == InFlight(w);
  }

  lemma Exits(max: nat, registered: set<WorkflowKey>, w: WorkerState, id: Id)
    requires WorkerOk(max, registered, w) && id in w.claims && w.claims[id].stage.Running?
    ensures WorkerOk(max, registered, ToStage(w, id, Exited)) && ActiveOf(ToStage(w, id, Exited)) == ActiveOf(w)
  {
    assert InFlight(ToStage(w, id, Exited)) == InFlight(w);
  }

  lemma Releases(max: nat, registered: set<WorkflowKey>, w: WorkerState, id: Id, w': WorkerState)
    requires WorkerOk(max, registered, w) && id in w.claims && w.claims[id].stage.Exited?
    requires w' == ToStage(w, id, Released).(entries := w.entries - {id})
    ensures WorkerOk(max, registered, w') && ActiveOf(w') == ActiveOf(w)
  {
    assert InFlight(w') == InFlight(w);
  }

  lemma Uncounts(max: nat, registered: set<WorkflowKey>, w: WorkerState, id: Id, w': WorkerState)
    requires WorkerOk(max, registered, w) && id in w.claims && w.claims[id].stage.Released?
    requires w' == ToStage(w, id, Uncounted).(inFlight := w.inFlight - 1)
    ensures WorkerOk(max, registered, w') && ActiveOf(w') == ActiveOf(w)
  {
    assert InFlight(w') == InFlight(w) - {id};
  }

  lemma Finishes(max: nat, registered: set<WorkflowKey>, w: WorkerState, id: Id, w': WorkerState)
    requires WorkerOk(max, registered, w) && id in w.claims && w.claims[id].stage.Uncounted?
    requires w' == w.(claims := w.claims - {id})
    ensures WorkerOk(max, registered, w') && |ActiveOf(w')| == |ActiveOf(w)| - 1
  {
    assert InFlight(w') == InFlight(w) && ActiveOf(w') == ActiveOf(w) - {id};
  }

  /* ---- steps of the engine ---- */

  lemma DispatcherStep(e: EngineState, s: Step)
    requires EngineOk(e) && Enabled(e, s)
    requires s.StartDispatch? || s.ClaimFails? || s.ClaimReturns? || s.StopDispatch?
    ensures EngineOk(Apply(e, s))
  {
    var w := Last(e);
    var w' := Last(Apply(e, s));
    DispatcherMoves(e.max, e.registered, w, w');
    WorkerReplaced(e, |e.workers| - 1, w', e.active);
  }

  lemma ClaimMoves(e: EngineState, s: Step)
    requires EngineOk(e) && Enabled(e, s) && (s.Count? || s.Activate? || s.Insert?)
    ensures EngineOk(Apply(e, s))
  {
    var w := Last(e);
    assert WorkerOk(e.max, e.registered, w);
    hide WorkerOk, ActiveOf;
    var w' := Last(Apply(e, s));
    match s {
      case Count(id) => Counts(e.max, e.registered, w, id, w');
      case Activate => Activates(e.max, e.registered, w, w.dispatcher.current.value);
      case Insert => EntryInserted(e.max, e.registered, w, w.dispatcher.current.value, w');
    }
    WorkerReplaced(e, |e.workers| - 1, w', Apply(e, s).active);
  }

  /** The clean-up a claim defers. */
  lemma CleanupStep(e: EngineState, s: Step)
    requires EngineOk(e) && Enabled(e, s) && (s.Exit? || s.Release? || s.Uncount? || s.Finish?)
    ensures EngineOk(Apply(e, s))
  {
    hide WorkerOk, ActiveOf;
    var w' := Apply(e, s).workers[s.worker];
    match s {
      case Exit(_, id) => Exits(e.max, e.registered, e.workers[s.worker], id);
      case Release(_, id) => Releases(e.max, e.registered, e.workers[s.worker], id, w');
      case Uncount(_, id) => Uncounts(e.max, e.registered, e.workers[s.worker], id, w');
      case Finish(_, id) => Finishes(e.max, e.registered, e.workers[s.worker], id, w');
    }
    WorkerReplaced(e, s.worker, w', Apply(e, s).active);
  }

  lemma RegisterStep(e: EngineState, key: WorkflowKey)
    requires EngineOk(e)
    ensures EngineOk(Apply(e, Register(key)))
  {
    forall i | 0 <= i < |e.workers| ensures WorkerOk(e.max, e.registered + {key}, e.workers[i]) {
      Knows(e.max, e.registered, key, e.workers[i]);
    }
    hide WorkerOk;
  }

  lemma Knows(max: nat, registered: set<WorkflowKey>, key: WorkflowKey, w: WorkerState)
    requires WorkerOk(max, registered, w)
    ensures WorkerOk(max, registered + {key}, w)
  {
  }

  lemma BeginStep(e: EngineState)
    requires EngineOk(e) && Enabled(e, BeginWorker)
    ensures EngineOk(Apply(e, BeginWorker))
  {
    var begun := WorkerState(Idle, map[], 0, {});
    NewWorkerOk(e.max, e.registered, begun);
    hide WorkerOk, ActiveOf;
    assert (e.workers + [begun])[..|e.workers|] == e.workers;
  }

  lemma NewWorkerOk(max: nat, registered: set<WorkflowKey>, w: WorkerState)
    requires w == WorkerState(Idle, map[], 0, {})
    ensures WorkerOk(max, registered, w) && ActiveOf(w) == {}
  {
    assert InFlight(w) == {} && ActiveOf(w) == {};
  }

  /** Registration, starting, ending and waiting change no existing worker. */
  lemma LifecycleStep(e: EngineState, s: Step)
    requires EngineOk(e) && Enabled(e, s)
    requires s.Register? || s.BeginWorker? || s.EndWorker? || s.WaitStarts? || s.WaitReturnsNil? || s.WaitGivesUp?
    ensures EngineOk(Apply(e, s))
  {
    hide WorkerOk;
    match s {
      case Register(key) => RegisterStep(e, key);
      case BeginWorker => BeginStep(e);
      case _ =>
    }
  }

  lemma EngineStep(e: EngineState, s: Step)
    requires EngineOk(e) && Enabled(e, s)
    ensures EngineOk(Apply(e, s))
  {
    hide EngineOk, Enabled, Apply;
    match s {
      case Count(_) => ClaimMoves(e, s);
      case Activate => ClaimMoves(e, s);
      case Insert => ClaimMoves(e, s);
      case StartDispatch => DispatcherStep(e, s);
      case ClaimFails => DispatcherStep(e, s);
      case ClaimReturns(_) => DispatcherStep(e, s);
      case StopDispatch => DispatcherStep(e, s);
      case Exit(_, _) => CleanupStep(e, s);
      case Release(_, _) => CleanupStep(e, s);
      case Uncount(_, _) => CleanupStep(e, s);
      case Finish(_, _) => CleanupStep(e, s);
      case _ => LifecycleStep(e, s);
    }
  }

  /* ---- runs ---- */

  predicate IsRun(engines: seq<EngineState>, steps: seq<Step>) {
    && |engines| == |steps| + 1
    && engines[0] == Init(engines[0].max)
    && forall i :: 0 <= i < |steps| ==> Enabled(engines[i], steps[i]) && engines[i + 1] == Apply(engines[i], steps[i])
  }

  lemma {:induction false} EveryStateOk(engines: seq<EngineState>, steps: seq<Step>, i: nat)
    requires IsRun(engines, steps) && i < |engines|
    ensures EngineOk(engines[i])
  {
    if i == 0 {
    } else {
      EveryStateOk(engines, steps, i - 1);
      EngineStep(engines[i - 1], steps[i - 1]);
    }
  }

  lemma SubsetNotLarger(a: set<Id>, b: set<Id>)
    requires a <= b
    ensures |a| <= |b|
  {
    assert b == a + (b - a);
  }

  /** However dispatch and completion interleave, a worker's lease entries are at most its in-flight count,
      which is at most the limit; every claim it runs has an entry until it exits. */
  lemma CapacityBound(engines: seq<EngineState>, steps: seq<Step>, i: nat, k: nat)
    requires IsRun(engines, steps) && i < |engines| && k < |engines[i].workers|
    ensures var w := engines[i].workers[k];
            && |w.entries| <= w.inFlight <= engines[i].max
            && forall id :: id in w.claims && w.claims[id].stage.Running? ==> id in w.entries
  {
    EveryStateOk(engines, steps, i);
    var w := engines[i].workers[k];
    assert w.entries <= InFlight(w);
    SubsetNotLarger(w.entries, InFlight(w));
  }

  lemma {:induction false} RegisteredGrows(engines: seq<EngineState>, steps: seq<Step>, i: nat, j: nat)
    requires IsRun(engines, steps) && i <= j < |engines|
    ensures engines[i].registered <= engines[j].registered
  {
    if i == j {
    } else {
      RegisteredGrows(engines, steps, i, j - 1);
    }
  }

  /** A claim's workflow is registered, then and at every later moment, so drive always finds its definition. */
  lemma ClaimsAreRegistered(engines: seq<EngineState>, steps: seq<Step>, i: nat, j: nat, k: nat, id: Id)
    requires IsRun(engines, steps) && i <= j < |engines| && k < |engines[i].workers| && id in engines[i].workers[k].claims
    ensures engines[i].workers[k].claims[id].workflow in engines[j].registered
  {
    EveryStateOk(engines, steps, i);
    RegisteredGrows(engines, steps, i, j);
  }

  /** No claim of the engine is running or being started, under any worker. */
  predicate Quiet(e: EngineState) {
    !e.running && forall k :: 0 <= k < |e.workers| ==> e.workers[k].claims == map[]
  }

  /** When WaitForIdle returns nil no claim of the engine is running. */
  lemma IdleMeansNoClaims(engines: seq<EngineState>, steps: seq<Step>, i: nat)
    requires IsRun(engines, steps) && i < |steps| && steps[i].WaitReturnsNil?
    ensures Quiet(engines[i])
  {
    EveryStateOk(engines, steps, i);
    var e := engines[i];
    assert Enabled(e, steps[i]);
    TotalZero(e.workers);
    forall k | 0 <= k < |e.workers| ensures e.workers[k].claims == map[] {
      var w := e.workers[k];
      assert WorkerOk(e.max, e.registered, w) && ActiveOf(w) == {};
      assert forall id :: id in w.claims ==> id in ActiveOf(w);
    }
  }

  /** After WaitForIdle returned nil nothing runs until StartWorker is called again. */
  lemma {:induction false} StaysIdle(engines: seq<EngineState>, steps: seq<Step>, i: nat, j: nat)
    requires IsRun(engines, steps) && i < j < |engines| && steps[i].WaitReturnsNil?
    requires forall m :: i < m < j ==> !steps[m].BeginWorker?
    ensures Quiet(engines[j])
  {
    if j == i + 1 {
      IdleMeansNoClaims(engines, steps, i);
    } else {
      StaysIdle(engines, steps, i, j - 1);
    }
    assert engines[j] == Apply(engines[j - 1], steps[j - 1]);
  }

  ghost predicate EndsAt(engines: seq<EngineState>, steps: seq<Step>, e: EngineState) {
    IsRun(engines, steps) && engines[|steps|] == e
  }

  ghost predicate Reached(e: EngineState) {
    exists engines, steps :: EndsAt(engines, steps, e)
  }
}
