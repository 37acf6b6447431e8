/** Statements that look at whole tables: which rows they touch and what they answer. */
module Tables {
  import opened Basics
  import opened Workflow
  import opened Rows

  datatype Event = Event(id: nat, key: string, payload: Json, created: Time, expires: Time)

  predicate Qualifies(e: Event, key: string, now: Time) {
    e.key == key && e.expires > now
  }

  predicate Newer(a: Event, b: Event) {
    a.created > b.created || (a.created == b.created && a.id > b.id)
  }

  /** The answer of latestEvent: the newest unexpired event by (created_at, id). */
  ghost predicate LatestEvent(log: set<Event>, key: string, now: Time, found: Option<Event>) {
    match found
    case None => forall e :: e in log ==> !Qualifies(e, key, now)
    case Some(e) => e in log && Qualifies(e, key, now) && forall f :: f in log && Qualifies(f, key, now) ==> f == e || Newer(e, f)
  }

  /** No two events share an id, and the next id is unused. */
  ghost predicate IdsOk(log: set<Event>, nextEvent: nat) {
    && (forall e :: e in log ==> e.id < nextEvent)
    && (forall e, f :: e in log && f in log && e.id == f.id ==> e == f)
  }

  /** One more event: it is the answer when it qualifies and is newer than the answer so far. */
  lemma LatestWith(log: set<Event>, nextEvent: nat, seen: set<Event>, e: Event, key: string, now: Time, found: Option<Event>)
    requires IdsOk(log, nextEvent) && seen <= log && e in log && LatestEvent(seen, key, now, found)
    ensures LatestEvent(seen + {e}, key, now, if Qualifies(e, key, now) && (found.None? || Newer(e, found.value)) then Some(e) else found)
  {
  }

  predicate SameDedup(run: Run, name: string, dedup: Option<string>) {
    dedup.Some? && run.workflow.name == name && run.dedup == dedup
  }

  /** An existing run already owns the workflow name and deduplication key. */
  ghost predicate Duplicate(runs: map<RunId, Run>, name: string, dedup: Option<string>) {
    exists r :: r in runs && SameDedup(runs[r], name, dedup)
  }

  /** A row is renewed when its (id, token) pair was sent and its lease is still live. */
  predicate RenewMatches(run: Run, r: RunId, pairs: map<Token, RunId>, clock: Time) {
    run.token.Some? && run.token.value in pairs && pairs[run.token.value] == r && Fence(run, run.token.value, clock)
  }

  function RenewAll(runs: map<RunId, Run>, pairs: map<Token, RunId>, clock: Time, ttl: nat): map<RunId, Run> {
    map r | r in runs :: if RenewMatches(runs[r], r, pairs, clock) then Renew(runs[r], clock, ttl) else runs[r]
  }

  function WakeAll(runs: map<RunId, Run>, key: string, payload: Json, now: Time): map<RunId, Run> {
    map r | r in runs :: if Awaits(runs[r], key, now) then Wake(runs[r], payload, now) else runs[r]
  }

  function TimeOutAll(runs: map<RunId, Run>, picked: set<RunId>, now: Time): map<RunId, Run> {
    map r | r in runs :: if r in picked then TimeOut(runs[r], now) else runs[r]
  }

  function RecoverAll(runs: map<RunId, Run>, picked: set<RunId>, clock: Time): map<RunId, Run> {
    map r | r in runs :: if r in picked then Recover(runs[r], clock) else runs[r]
  }
}
