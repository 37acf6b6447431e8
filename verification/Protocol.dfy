/** The whole system as a state machine: PostgreSQL, every claim ever taken, the event
    transactions and one monotone clock. Each SQL statement is one step; a row-locked batch
    touches every picked row in that step. */
module Protocol {
  import opened Basics
  import opened Workflow
  import opened Rows
  import opened Tables
  import opened Worker
  import Text

  /** Published definitions, lease and event lifetimes, and the advisory-lock hash. */
  datatype World = World(defs: map<WorkflowKey, Definition>, ttl: nat, eventTtl: nat, lock: string -> int)

  ghost predicate WorldOk(w: World) {
    forall k :: k in w.defs ==> WellFormed(w.defs[k]) && KeyOf(w.defs[k]) == k
  }

  /** An EmitEvent transaction between its BEGIN and its COMMIT. */
  datatype EmitTx = EmitTx(key: string, payload: Json, begin: Time, locked: bool)

  /** History of parked waits and of how each wait was settled, kept for stating what happened. `seen` is
      the number of events committed before. */
  datatype Registration = Registration(key: string, begin: Time, deadline: Time, look: Look)
  datatype Timeout = Timeout(registration: Registration, promotedAt: Time, seen: nat)
  datatype Delivery = AtLookup(event: Event, begin: Time, look: Look) | ByEmission(event: Event, registration: Registration, seen: nat)
  datatype History = History(latest: Option<Token>, registrations: map<nat, Registration>, timeouts: map<nat, Timeout>,
                             deliveries: map<nat, Delivery>)

  datatype Sys = Sys(
    clock: Time,
    runs: map<RunId, Run>,
    log: set<Event>,
    nextEvent: nat,
    claims: map<Token, ClaimedRun>,
    emits: map<nat, EmitTx>,
    emitted: seq<Event>,
    pruned: set<Event>,
    history: map<RunId, History>
  )

  function Init(clock: Time): Sys {
    Sys(clock, map[], {}, 0, map[], map[], [], {}, map[])
  }

  /** Steps of a wait transaction before it settles. */
  datatype TxMove = WaitLock | WaitLookup(found: Option<Event>) | WaitRollback

  /** Steps of an emitting transaction before it commits. */
  datatype EmitMove = EmitBegin(key: string, payload: Json) | EmitLock | EmitRollback

  /** One step. `now` is transaction start, `statement` statement start; both are at or before the
      clock, at which clock_timestamp() is read. */
  datatype Label =
    | Tick(to: Time)
    | Enqueue(id: RunId, workflow: WorkflowKey, queue: string, maxAttempts: nat, at: Option<Time>, now: Time,
              input: Json, dedup: Option<string>)
    | ClaimRun(id: RunId, token: Token, started: Time, now: Time, queue: string)
    | RenewLeases(tokens: set<Token>, passAt: Time)
    | Local(token: Token, move: Move)
    | Waiting(token: Token, txMove: TxMove)
    | Server(token: Token, exec: Exec)
    | Emitting(tx: nat, emitMove: EmitMove)
    | EmitCommit(tx: nat)
    | Prune(events: set<Event>, statement: Time)
    | PromoteTimedOut(picked: set<RunId>, now: Time, statement: Time)
    | RecoverLeases(picked: set<RunId>, statement: Time)
    | CancelRun(id: RunId)

  /* ---- advisory locks ---- */

  datatype Owner = Waiter(token: Token) | Emitter(tx: nat)

  predicate Holds(w: World, claims: map<Token, ClaimedRun>, emits: map<nat, EmitTx>, o: Owner, lock: int) {
    match o
    case Waiter(t) => t in claims && claims[t].tx.Some? && !claims[t].tx.value.phase.Begun? && w.lock(claims[t].tx.value.key) == lock
    case Emitter(x) => x in emits && emits[x].locked && w.lock(emits[x].key) == lock
  }

  ghost predicate LockFree(w: World, s: Sys, lock: int) {
    forall o :: !Holds(w, s.claims, s.emits, o, lock)
  }

  /* ---- enabling ---- */

  predicate HasDef(w: World, s: Sys, t: Token) {
    t in s.claims && s.claims[t].run in s.runs && s.runs[s.claims[t].run].workflow in w.defs
  }

  function DefFor(w: World, s: Sys, t: Token): Definition
    requires HasDef(w, s, t)
  {
    w.defs[s.runs[s.claims[t].run].workflow]
  }

  ghost predicate CanTxMove(w: World, s: Sys, t: Token, m: TxMove)
    requires t in s.claims
  {
    var tx := s.claims[t].tx;
    match m
    case WaitLock => tx.Some? && tx.value.phase.Begun? && LockFree(w, s, w.lock(tx.value.key))
    case WaitLookup(found) => tx.Some? && tx.value.phase.Locked? && LatestEvent(s.log, tx.value.key, tx.value.begin, found)
    case WaitRollback => tx.Some?
  }

  ghost predicate CanEmitMove(w: World, s: Sys, x: nat, m: EmitMove) {
    match m
    case EmitBegin(key, _) => x !in s.emits && key != "" && Text.IsTrimmed(key)
    case EmitLock => x in s.emits && !s.emits[x].locked && LockFree(w, s, w.lock(s.emits[x].key))
    case EmitRollback => x in s.emits
  }

  ghost predicate Enabled(w: World, s: Sys, l: Label) {
    match l
    case Tick(to) => s.clock <= to
    case Enqueue(id, k, _, max, _, now, _, _) => IsId(id) && k in w.defs && 0 < max && now <= s.clock
    case ClaimRun(r, t, started, now, queue) =>
      && r in s.runs && s.runs[r].queue == queue && s.runs[r].workflow in w.defs && Claimable(s.runs[r], now)
      && t !in s.claims && started <= now <= s.clock
    case RenewLeases(tokens, passAt) => tokens <= s.claims.Keys && passAt <= s.clock
    case Local(t, m) => HasDef(w, s, t) && CanMove(DefFor(w, s, t), s.claims[t], m)
    case Waiting(t, m) => t in s.claims && CanTxMove(w, s, t, m)
    case Server(t, x) => t in s.claims && s.claims[t].run in s.runs && CanExecute(s.claims[t], x, s.clock)
    case Emitting(x, m) => CanEmitMove(w, s, x, m)
    case EmitCommit(x) => x in s.emits && s.emits[x].locked
    case Prune(events, statement) => events <= s.log && statement <= s.clock && forall e :: e in events ==> e.expires <= statement
    case PromoteTimedOut(picked, now, statement) =>
      picked <= s.runs.Keys && now <= statement <= s.clock && forall r :: r in picked ==> Overdue(s.runs[r], statement)
    case RecoverLeases(picked, statement) =>
      picked <= s.runs.Keys && statement <= s.clock && forall r :: r in picked ==> Expired(s.runs[r], statement)
    case CancelRun(r) => r in s.runs
  }

  /* ---- effects ---- */

  function WithClaim(s: Sys, t: Token, c: ClaimedRun): Sys {
    s.(claims := s.claims[t := c])
  }

  ghost function DoTxMove(w: World, s: Sys, t: Token, m: TxMove): Sys
    requires t in s.claims && CanTxMove(w, s, t, m)
  {
    var c := s.claims[t];
    match m
    case WaitLock => WithClaim(s, t, c.(tx := Some(c.tx.value.(phase := Locked))))
    case WaitLookup(found) =>
      var look := Look(s.clock, |s.emitted|, s.pruned);
      var phase := if found.Some? then Found(found.value, look) else Empty(look);
      WithClaim(s, t, c.(tx := Some(c.tx.value.(phase := phase))))
    case WaitRollback =>
      var rest := c.(tx := None);
      WithClaim(s, t, if c.phase.InTx? then Err(rest, "rolled back") else rest)
  }

  ghost function DoEmitMove(w: World, s: Sys, x: nat, m: EmitMove): Sys
    requires CanEmitMove(w, s, x, m)
  {
    match m
    case EmitBegin(key, payload) => s.(emits := s.emits[x := EmitTx(key, payload, s.clock, false)])
    case EmitLock => s.(emits := s.emits[x := s.emits[x].(locked := true)])
    case EmitRollback => s.(emits := s.emits - {x})
  }

  function DoServer(s: Sys, t: Token, x: Exec): Sys
    requires t in s.claims && s.claims[t].run in s.runs && CanExecute(s.claims[t], x, s.clock)
  {
    var e := Executed(s.claims[t], t, s.runs[s.claims[t].run], s.clock, x);
    s.(claims := s.claims[t := e.claim], runs := s.runs[s.claims[t].run := e.run],
       history := if x.WaitSettle? then Registered(s, t) else s.history)
  }

  ghost predicate Inserts(s: Sys, l: Label)
    requires l.Enqueue?
  {
    !Duplicate(s.runs, l.workflow.name, l.dedup) && l.id !in s.runs
  }

  ghost function DoEnqueue(s: Sys, l: Label): Sys
    requires l.Enqueue?
  {
    if !Inserts(s, l) then s
    else
      var at := if l.at.Some? then l.at.value else l.now;
      s.(runs := s.runs[l.id := Inserted(l.workflow, l.queue, l.maxAttempts, at, l.input, l.dedup)],
         history := s.history[l.id := History(None, map[], map[], map[])])
  }

  function DoClaim(w: World, s: Sys, r: RunId, t: Token, started: Time): Sys
    requires r in s.runs && s.runs[r].workflow in w.defs
  {
    var leased := Claim(s.runs[r], t, s.clock, w.ttl);
    s.(runs := s.runs[r := leased],
       claims := s.claims[t := Start(w.defs[leased.workflow], r, leased, started, w.ttl)],
       history := if r in s.history then s.history[r := s.history[r].(latest := Some(t))] else s.history)
  }

  /** The (token, id) pairs one heartbeat statement sends. */
  function Pairs(s: Sys, tokens: set<Token>): map<Token, RunId>
    requires tokens <= s.claims.Keys
  {
    map t | t in tokens :: s.claims[t].run
  }

  predicate Renewed(s: Sys, tokens: set<Token>, r: RunId)
    requires r in s.runs && tokens <= s.claims.Keys
  {
    RenewMatches(s.runs[r], r, Pairs(s, tokens), s.clock)
  }

  /** A sent token whose row answered. */
  predicate Confirmed(s: Sys, tokens: set<Token>, t: Token)
    requires t in s.claims && tokens <= s.claims.Keys
  {
    t in tokens && s.claims[t].run in s.runs && Fence(s.runs[s.claims[t].run], t, s.clock)
  }

  function DoRenew(w: World, s: Sys, tokens: set<Token>, at: Time): Sys
    requires tokens <= s.claims.Keys
  {
    s.(runs := RenewAll(s.runs, Pairs(s, tokens), s.clock, w.ttl),
       claims := map t | t in s.claims ::
         if Confirmed(s, tokens, t) then s.claims[t].(granted := s.clock + WholeMillis(w.ttl), confirm := Some(at + w.ttl))
         else s.claims[t])
  }

  /** What a settled wait transaction leaves in the history of its run. */
  function Noted(h: History, tx: WaitTx): History
    requires tx.phase.Found? || tx.phase.Empty?
  {
    if tx.phase.Found? then h.(deliveries := h.deliveries[tx.index := AtLookup(tx.phase.event, tx.begin, tx.phase.look)])
    else
      h.(registrations := h.registrations[tx.index :=
           Registration(tx.key, tx.begin, tx.begin + WholeMillis(tx.timeout), tx.phase.look)])
  }

  function Registered(s: Sys, t: Token): map<RunId, History>
    requires t in s.claims && s.claims[t].run in s.runs && CanSettle(s.claims[t])
  {
    var c := s.claims[t];
    var tx := c.tx.value;
    if c.run in s.history && Fence(s.runs[c.run], t, s.clock) then s.history[c.run := Noted(s.history[c.run], tx)] else s.history
  }

  function DoEmit(w: World, s: Sys, x: nat): Sys
    requires x in s.emits
  {
    var tx := s.emits[x];
    var e := Event(s.nextEvent, tx.key, tx.payload, tx.begin, tx.begin + WholeMillis(w.eventTtl));
    s.(log := s.log + {e}, nextEvent := s.nextEvent + 1, emitted := s.emitted + [e], emits := s.emits - {x},
       runs := WakeAll(s.runs, tx.key, tx.payload, tx.begin),
       history := map r | r in s.history ::
         if r in s.runs && Awaits(s.runs[r], tx.key, tx.begin) then NoteWake(s.history[r], s.runs[r].cursor, e, |s.emitted|) else s.history[r])
  }

  function NoteWake(h: History, cursor: nat, e: Event, seen: nat): History {
    if cursor in h.registrations then h.(deliveries := h.deliveries[cursor := ByEmission(e, h.registrations[cursor], seen)]) else h
  }

  function NoteTimeout(h: History, cursor: nat, at: Time, seen: nat): History {
    if cursor in h.registrations then h.(timeouts := h.timeouts[cursor := Timeout(h.registrations[cursor], at, seen)]) else h
  }

  function DoPromote(s: Sys, picked: set<RunId>, now: Time, statement: Time): Sys
    requires picked <= s.runs.Keys
  {
    s.(runs := TimeOutAll(s.runs, picked, now),
       history := map r | r in s.history ::
         if r in picked then NoteTimeout(s.history[r], s.runs[r].cursor, statement, |s.emitted|) else s.history[r])
  }

  function DoRecover(s: Sys, picked: set<RunId>): Sys {
    s.(runs := RecoverAll(s.runs, picked, s.clock))
  }

  ghost function Apply(w: World, s: Sys, l: Label): Sys
    requires Enabled(w, s, l)
  {
    match l
    case Tick(to) => s.(clock := to)
    case Enqueue(_, _, _, _, _, _, _, _) => DoEnqueue(s, l)
    case ClaimRun(r, t, started, _, _) => DoClaim(w, s, r, t, started)
    case RenewLeases(tokens, passAt) => DoRenew(w, s, tokens, passAt)
    case Local(t, m) => WithClaim(s, t, Moved(DefFor(w, s, t), s.claims[t], m, s.clock))
    case Waiting(t, m) => DoTxMove(w, s, t, m)
    case Server(t, x) => DoServer(s, t, x)
    case Emitting(x, m) => DoEmitMove(w, s, x, m)
    case EmitCommit(x) => DoEmit(w, s, x)
    case Prune(events, _) => s.(log := s.log - events, pruned := s.pruned + events)
    case PromoteTimedOut(picked, now, statement) => DoPromote(s, picked, now, statement)
    case RecoverLeases(picked, _) => DoRecover(s, picked)
    case CancelRun(r) => s.(runs := s.runs[r := Cancel(s.runs[r])])
  }

  /** A finite run of the system from an empty database. */
  ghost predicate IsTrace(w: World, states: seq<Sys>, labels: seq<Label>) {
    && |states| == |labels| + 1
    && states[0] == Init(states[0].clock)
    && forall i :: 0 <= i < |labels| ==> Enabled(w, states[i], labels[i]) && states[i + 1] == Apply(w, states[i], labels[i])
  }
}
