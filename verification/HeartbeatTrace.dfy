/** One worker's heartbeat running beside the whole system: its claims and renewals are steps of the system, its
    table lives in its own process. What the table calls a confirmed deadline is within the lease in the database. */
module HeartbeatTrace {
  import opened Basics
  import opened Workflow
  import opened Rows
  import opened Tables
  import opened Worker
  import opened ClaimInvariant
  import opened Protocol
  import opened CoreInvariant
  import opened LeaseInvariant
  import opened EventSteps
  import opened SystemInvariant
  import opened Occurrences
  import Heartbeats = Leases

  /** `reply` is the answer of an executed renewal that the heartbeat has not read yet. */
  datatype Joint = Joint(s: Sys, beat: Heartbeats.Beat, reply: Option<set<Token>>)

  /** Any step of the system, a claim of this worker, a step of its heartbeat, the execution of its pending renewal, or
      the answer arriving. A renewal given up on can still be executed, as any other step. */
  datatype JointStep =
    | Outside(step: Label)
    | Claims(id: RunId, token: Token, started: Time, now: Time, queue: string)
    | Beats(pulse: Heartbeats.Pulse)
    | Executes
    | Hears

  ghost predicate Can(w: World, j: Joint, step: JointStep) {
    match step
    case Outside(l) => Enabled(w, j.s, l)
    case Claims(r, t, started, now, queue) =>
      Enabled(w, j.s, ClaimRun(r, t, started, now, queue)) && Heartbeats.Possible(j.beat, Heartbeats.Claimed(t, r, started))
    case Beats(e) => Heartbeats.Possible(j.beat, e) && (e.Released? || e.Woke? || e.GotError? || (e.Sent? && e.now <= j.s.clock))
    case Executes => j.beat.pending.Some? && j.reply.None? && Enabled(w, j.s, RenewalLabel(j))
    case Hears => j.beat.pending.Some? && j.reply.Some?
  }

  /** The statement of the pending renewal. */
  function RenewalLabel(j: Joint): Label
    requires j.beat.pending.Some?
  {
    RenewLeases(j.beat.pending.value.tokens, j.beat.pending.value.at)
  }

  ghost function Next(w: World, every: nat, j: Joint, step: JointStep): Joint
    requires Can(w, j, step)
  {
    match step
    case Outside(l) => j.(s := Apply(w, j.s, l))
    case Claims(r, t, started, now, queue) =>
      j.(s := Apply(w, j.s, ClaimRun(r, t, started, now, queue)),
         beat := Heartbeats.Happened(j.beat, Heartbeats.Claimed(t, r, started), every, w.ttl))
    case Beats(e) =>
      j.(beat := Heartbeats.Happened(j.beat, e, every, w.ttl), reply := if e.Sent? || e.GotError? then None else j.reply)
    case Executes =>
      var tokens := j.beat.pending.value.tokens;
      j.(s := Apply(w, j.s, RenewalLabel(j)), reply := Some(set t | t in tokens && t in j.s.claims && RowAnswers(j.s, t)))
    case Hears => j.(beat := Heartbeats.Happened(j.beat, Heartbeats.Answered(j.reply.value), every, w.ttl), reply := None)
  }

  /** The row of the claim passes the fence, so the renewal returns the token. */
  predicate RowAnswers(s: Sys, t: Token)
    requires t in s.claims
  {
    s.claims[t].run in s.runs && Fence(s.runs[s.claims[t].run], t, s.clock)
  }

  ghost predicate IsJointRun(w: World, every: nat, js: seq<Joint>, steps: seq<JointStep>) {
    && |js| == |steps| + 1
    && js[0] == Joint(Init(js[0].s.clock), Heartbeats.Beat(map[], js[0].s.clock + every, None), None)
    && forall i :: 0 <= i < |steps| ==> Can(w, js[i], steps[i]) && js[i + 1] == Next(w, every, js[i], steps[i])
  }

  /* ---- what every joint step keeps ---- */

  /** The deadline is covered by the latest lease the database granted to the token. */
  ghost predicate Covered(w: World, s: Sys, t: Token, deadline: Time) {
    t in s.claims && deadline <= s.claims[t].granted + Slack(w)
  }

  ghost predicate TableOk(w: World, j: Joint) {
    && (forall t :: t in j.beat.entries ==> Covered(w, j.s, t, j.beat.entries[t].deadline) && j.s.claims[t].run == j.beat.entries[t].run)
    && (j.beat.pending.Some? ==> j.beat.pending.value.at <= j.s.clock)
    && (j.reply.Some? ==> j.beat.pending.Some? && forall t :: t in j.reply.value ==> Covered(w, j.s, t, j.beat.pending.value.at + w.ttl))
  }

  /** What the database granted a token only grows, and no step forgets a claim. */
  ghost predicate Grows(s: Sys, s': Sys) {
    && s.clock <= s'.clock
    && forall t :: t in s.claims ==> t in s'.claims && s'.claims[t].run == s.claims[t].run && s.claims[t].granted <= s'.claims[t].granted
  }

  lemma MoveGrants(def: Definition, c: ClaimedRun, m: Move, clock: Time)
    requires CanMove(def, c, m)
    ensures Moved(def, c, m, clock).granted == c.granted && Moved(def, c, m, clock).run == c.run
  {
  }

  lemma ExecGrants(c: ClaimedRun, t: Token, run: Run, clock: Time, x: Exec)
    requires CanExecute(c, x, clock)
    ensures Executed(c, t, run, clock, x).claim.granted == c.granted && Executed(c, t, run, clock, x).claim.run == c.run
  {
  }

  lemma TxGrants(w: World, s: Sys, t: Token, m: TxMove)
    requires t in s.claims && CanTxMove(w, s, t, m)
    ensures Grows(s, DoTxMove(w, s, t, m))
  {
    hide LockFree, LatestEvent;
  }

  lemma ServerGrants(s: Sys, t: Token, x: Exec)
    requires t in s.claims && s.claims[t].run in s.runs && CanExecute(s.claims[t], x, s.clock)
    ensures Grows(s, DoServer(s, t, x))
  {
    hide Executed, CanExecute, Registered;
    ExecGrants(s.claims[t], t, s.runs[s.claims[t].run], s.clock, x);
  }

  lemma RenewGrants(w: World, s: Sys, tokens: set<Token>, at: Time)
    requires LeaseOk(w, s) && tokens <= s.claims.Keys
    ensures Grows(s, DoRenew(w, s, tokens, at))
    ensures forall t :: t in tokens && RowAnswers(s, t) ==> DoRenew(w, s, tokens, at).claims[t].granted == s.clock + WholeMillis(w.ttl)
  {
    hide RenewAll, Released, LatestAt, WholeMillis;
  }

  /** The other labels touch no claim but a new one. */
  lemma OthersGrow(w: World, s: Sys, l: Label)
    requires Enabled(w, s, l) && !l.Local? && !l.Waiting? && !l.Server? && !l.RenewLeases?
    ensures Grows(s, Apply(w, s, l))
  {
    hide CanEmitMove, WakeAll, TimeOutAll, RecoverAll, Claim, Start, NoteWake, NoteTimeout, Inserts, Cancel;
  }

  lemma SystemGrows(w: World, s: Sys, l: Label)
    requires LeaseOk(w, s) && Enabled(w, s, l)
    ensures Grows(s, Apply(w, s, l))
  {
    hide LeaseOk, Moved, CanMove, CanTxMove, DoTxMove, DoServer, CanExecute, DoRenew, CanEmitMove, DoEmit, DoPromote, DoRecover, DoClaim, DoEnqueue,
      DoEmitMove;
    match l {
      case Local(t, m) => MoveGrants(DefFor(w, s, t), s.claims[t], m, s.clock);
      case Waiting(t, m) => TxGrants(w, s, t, m);
      case Server(t, x) => ServerGrants(s, t, x);
      case RenewLeases(tokens, at) => RenewGrants(w, s, tokens, at);
      case _ => OthersGrow(w, s, l);
    }
  }

  lemma TableLater(w: World, j: Joint, s': Sys)
    requires TableOk(w, j) && Grows(j.s, s')
    ensures TableOk(w, j.(s := s'))
  {
  }

  lemma ClaimsStep(w: World, every: nat, j: Joint, r: RunId, t: Token, started: Time, now: Time, queue: string)
    requires SysOk(w, j.s) && TableOk(w, j) && Can(w, j, Claims(r, t, started, now, queue))
    ensures TableOk(w, Next(w, every, j, Claims(r, t, started, now, queue)))
  {
    hide SysOk, Enabled, Apply, Covered;
    var l := ClaimRun(r, t, started, now, queue);
    NewClaimCovered(w, j.s, l);
    TableLater(w, j, Apply(w, j.s, l));
  }

  lemma NewClaimCovered(w: World, s: Sys, l: Label)
    requires SysOk(w, s) && l.ClaimRun? && Enabled(w, s, l)
    ensures Grows(s, Apply(w, s, l)) && Covered(w, Apply(w, s, l), l.token, l.started + w.ttl) && Apply(w, s, l).claims[l.token].run == l.id
  {
    hide CoreOk, LeaseOk, EventsOk, DedupOk, ValuesOf;
    SystemGrows(w, s, l);
  }

  lemma ExecutesStep(w: World, every: nat, j: Joint)
    requires SysOk(w, j.s) && TableOk(w, j) && Can(w, j, Executes)
    ensures TableOk(w, Next(w, every, j, Executes))
  {
    hide CoreOk, LeaseOk, EventsOk, DedupOk, DoRenew, WholeMillis;
    var pending := j.beat.pending.value;
    RenewGrants(w, j.s, pending.tokens, pending.at);
    TableLater(w, j, DoRenew(w, j.s, pending.tokens, pending.at));
  }

  lemma BeatsStep(w: World, every: nat, j: Joint, e: Heartbeats.Pulse)
    requires TableOk(w, j) && Can(w, j, Beats(e))
    ensures TableOk(w, Next(w, every, j, Beats(e)))
  {
    hide Covered;
  }

  lemma HearsStep(w: World, every: nat, j: Joint)
    requires TableOk(w, j) && Can(w, j, Hears)
    ensures TableOk(w, Next(w, every, j, Hears))
  {
    hide Slack;
  }

  lemma JointKeeps(w: World, every: nat, j: Joint, step: JointStep)
    requires WorldOk(w) && SysOk(w, j.s) && TableOk(w, j) && Can(w, j, step)
    ensures SysOk(w, Next(w, every, j, step).s) && TableOk(w, Next(w, every, j, step))
  {
    hide WorldOk, CoreOk, LeaseOk, EventsOk, DedupOk, TableOk, Enabled, Apply;
    match step {
      case Outside(l) =>
        SysStep(w, j.s, l);
        SystemGrows(w, j.s, l);
        TableLater(w, j, Apply(w, j.s, l));
      case Claims(r, t, started, now, queue) =>
        SysStep(w, j.s, ClaimRun(r, t, started, now, queue));
        ClaimsStep(w, every, j, r, t, started, now, queue);
      case Beats(e) => BeatsStep(w, every, j, e);
      case Executes =>
        SysStep(w, j.s, RenewalLabel(j));
        ExecutesStep(w, every, j);
      case Hears => HearsStep(w, every, j);
    }
  }

  lemma {:induction false} JointOk(w: World, every: nat, js: seq<Joint>, steps: seq<JointStep>, i: nat)
    requires WorldOk(w) && IsJointRun(w, every, js, steps) && i <= |steps|
    ensures SysOk(w, js[i].s) && TableOk(w, js[i])
  {
    hide WorldOk, SysOk, TableOk, Can, Next;
    if i == 0 {
      InitOk(w, js[0].s.clock);
      EmptyTableOk(w, js[0]);
    } else {
      JointOk(w, every, js, steps, i - 1);
      JointKeeps(w, every, js[i - 1], steps[i - 1]);
    }
  }

  lemma EmptyTableOk(w: World, j: Joint)
    requires j.beat.entries == map[] && j.beat.pending.None? && j.reply.None?
    ensures TableOk(w, j)
  {
  }

  /** In every joint run, the deadline the table holds for a claim whose token is on its row is no later than the lease
      on that row, up to the part of the lease length below a millisecond; never later when that part is zero. */
  lemma TableWithinLease(w: World, every: nat, js: seq<Joint>, steps: seq<JointStep>, i: nat, t: Token)
    requires WorldOk(w) && IsJointRun(w, every, js, steps) && i <= |steps|
    requires t in js[i].beat.entries && js[i].beat.entries[t].run in js[i].s.runs
    requires js[i].s.runs[js[i].beat.entries[t].run].token == Some(t)
    ensures var until := js[i].s.runs[js[i].beat.entries[t].run].leaseUntil;
            until.Some? && js[i].beat.entries[t].deadline <= until.value + w.ttl % MILLISECOND
  {
    hide Can, Next;
    assert |js| == |steps| + 1;
    hide IsJointRun, WorldOk, SysOk;
    JointOk(w, every, js, steps, i);
    GrantedIsLease(w, js[i].s, t);
  }

  lemma GrantedIsLease(w: World, s: Sys, t: Token)
    requires SysOk(w, s) && t in s.claims && s.claims[t].run in s.runs && s.runs[s.claims[t].run].token == Some(t)
    ensures s.runs[s.claims[t].run].leaseUntil == Some(s.claims[t].granted)
  {
    hide LeaseOk, EventsOk, DedupOk, RowOk, TokenAt, PhaseOk, StatementOk, TxOk;
    assert ClaimAt(w, s.runs, t, s.claims[t]);
  }

  /** A claim in user code before a covered deadline is the latest claim of its run. */
  lemma CoveredIsLatest(w: World, t: Token, c: ClaimedRun, run: Run, latest: Option<Token>, clock: Time, deadline: Time)
    requires LeaseAt(w, t, c, run, latest, clock) && InUserCode(c) && deadline <= c.granted + Slack(w) && deadline > clock
    ensures latest == Some(t)
  {
  }

  /** In user code, before the deadline in the table. */
  predicate WorksByTable(j: Joint, t: Token) {
    t in j.beat.entries && j.beat.entries[t].deadline > j.s.clock && t in j.s.claims && InUserCode(j.s.claims[t])
  }

  lemma TableHolderIsLatest(w: World, every: nat, js: seq<Joint>, steps: seq<JointStep>, i: nat, t: Token)
    requires WorldOk(w) && IsJointRun(w, every, js, steps) && i <= |steps| && WorksByTable(js[i], t)
    ensures js[i].s.claims[t].run in js[i].s.history && js[i].s.history[js[i].s.claims[t].run].latest == Some(t)
  {
    hide Can, Next;
    assert |js| == |steps| + 1;
    hide IsJointRun, WorldOk, CoreOk, EventsOk, DedupOk, LeaseAt, LatestAt;
    JointOk(w, every, js, steps, i);
    var s := js[i].s;
    var r := s.claims[t].run;
    CoveredIsLatest(w, t, s.claims[t], s.runs[r], s.history[r].latest, s.clock, js[i].beat.entries[t].deadline);
  }

  /** The system as two workers see it, or as one does twice: of one run, no two claims are in user code before the
      deadlines in the tables that hold them. */
  lemma TablesExcludeEachOther(w: World, every: nat, js: seq<Joint>, steps: seq<JointStep>, i: nat, t: Token,
                               every': nat, ks: seq<Joint>, steps': seq<JointStep>, k: nat, u: Token)
    requires WorldOk(w) && IsJointRun(w, every, js, steps) && i <= |steps| && IsJointRun(w, every', ks, steps') && k <= |steps'|
    requires js[i].s == ks[k].s && WorksByTable(js[i], t) && WorksByTable(ks[k], u) && js[i].s.claims[t].run == ks[k].s.claims[u].run
    ensures t == u
  {
    hide WorldOk, IsJointRun, WorksByTable;
    TableHolderIsLatest(w, every, js, steps, i, t);
    TableHolderIsLatest(w, every', ks, steps', k, u);
  }

  /** While a claim of this worker is in user code before the deadline in the table, no other claim of the run, of any
      worker, is in user code before its own. */
  lemma TableExcludesOthers(w: World, every: nat, js: seq<Joint>, steps: seq<JointStep>, i: nat, t: Token, u: Token)
    requires WorldOk(w) && IsJointRun(w, every, js, steps) && i <= |steps| && WorksByTable(js[i], t)
    requires u in js[i].s.claims && js[i].s.claims[u].run == js[i].s.claims[t].run
    requires InUserCode(js[i].s.claims[u]) && js[i].s.claims[u].deadline > js[i].s.clock
    ensures t == u
  {
    hide Can, Next;
    assert |js| == |steps| + 1;
    hide IsJointRun, WorldOk, CoreOk, EventsOk, DedupOk, LeaseAt, LatestAt;
    JointOk(w, every, js, steps, i);
    TableHolderIsLatest(w, every, js, steps, i, t);
    var s := js[i].s;
    var r := s.claims[u].run;
    OwnDeadline(w, u, s.claims[u], s.runs[r], s.history[r].latest, s.clock);
    CoveredIsLatest(w, u, s.claims[u], s.runs[r], s.history[r].latest, s.clock, s.claims[u].deadline);
  }

  lemma OwnDeadline(w: World, t: Token, c: ClaimedRun, run: Run, latest: Option<Token>, clock: Time)
    requires LeaseAt(w, t, c, run, latest, clock)
    ensures c.deadline <= c.granted + Slack(w)
  {
  }

  /* ---- the answer is what the database did ---- */

  /** The step leaves a pending renewal and its answer alone. */
  predicate LeavesAnswer(step: JointStep) {
    !step.Executes? && !step.Hears? && !(step.Beats? && (step.pulse.Sent? || step.pulse.GotError?))
  }

  lemma {:induction false} AnswerWaits(w: World, every: nat, js: seq<Joint>, steps: seq<JointStep>, i: nat, j: nat)
    requires IsJointRun(w, every, js, steps) && i < j <= |steps| && steps[i].Executes?
    requires forall k :: i < k < j ==> LeavesAnswer(steps[k])
    ensures js[j].beat.pending == js[i].beat.pending && js[i].beat.pending.Some?
    ensures js[j].reply == Some(set t | t in js[i].beat.pending.value.tokens && t in js[i].s.claims && RowAnswers(js[i].s, t))
    decreases j
  {
    hide Enabled, Apply;
    assert Can(w, js[j - 1], steps[j - 1]) && js[j] == Next(w, every, js[j - 1], steps[j - 1]);
    if j == i + 1 {
    } else {
      AnswerWaits(w, every, js, steps, i, j - 1);
    }
  }

  /** A renewal that was executed in state `i` and heard in state `j`: of the claims it was sent for, exactly those whose
      rows were held under their tokens then keep going, with the deadline moved to a lease length after the pass; the
      others are cancelled; claims it was not sent for stay as they are. */
  lemma HearsWhatWasRenewed(w: World, every: nat, js: seq<Joint>, steps: seq<JointStep>, i: nat, j: nat, t: Token)
    requires IsJointRun(w, every, js, steps) && i < j < |steps| && steps[i].Executes? && steps[j].Hears?
    requires (forall k :: i < k < j ==> LeavesAnswer(steps[k])) && t in js[j].beat.entries && t in js[i].s.claims
    ensures js[i].beat.pending.Some? && t in js[j + 1].beat.entries
    ensures var sent := js[i].beat.pending.value;
            var before, after := js[j].beat.entries[t], js[j + 1].beat.entries[t];
            if t !in sent.tokens then after == before
            else if Holding(js[i].s, t) then after.deadline == sent.at + w.ttl && after.cancelled == before.cancelled
            else after.cancelled
  {
    hide Enabled, Apply;
    AnswerWaits(w, every, js, steps, i, j);
    assert Can(w, js[j], steps[j]) && js[j + 1] == Next(w, every, js[j], steps[j]);
    Heartbeats.EntryStep(js[j].beat, Heartbeats.Answered(js[j].reply.value), every, w.ttl, t);
    hide Heartbeats.Happened;
    assert RowAnswers(js[i].s, t) <==> Holding(js[i].s, t);
  }
}
