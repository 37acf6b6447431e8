/** The table of the claims one worker process holds, and the heartbeat that renews them together. */
module Leases {
  import opened Basics
  import opened Workflow
  import opened Rows

  /** One claim: until when the database has confirmed its lease, and whether its context is cancelled. */
  datatype Entry = Entry(run: RunId, deadline: Time, cancelled: bool)

  type Entries = map<Token, Entry>

  /* ---- what each operation does to the table ---- */

  predicate Live(entries: Entries, t: Token) {
    t in entries && !entries[t].cancelled
  }

  function ExpireAll(entries: Entries, now: Time): (r: Entries)
    ensures r.Keys == entries.Keys
    ensures forall t :: Live(r, t) <==> Live(entries, t) && entries[t].deadline > now
  {
    map t | t in entries :: if entries[t].deadline <= now then entries[t].(cancelled := true) else entries[t]
  }

  function LiveRuns(entries: Entries): map<Token, RunId> {
    map t | t in entries && !entries[t].cancelled :: entries[t].run
  }

  function Confirm(entries: Entries, sent: set<Token>, renewed: set<Token>, deadline: Time): Entries {
    map t | t in entries ::
      if t !in sent then entries[t]
      else if t in renewed then entries[t].(deadline := deadline)
      else entries[t].(cancelled := true)
  }

  ghost predicate IsEarliest(entries: Entries, earliest: Option<Time>) {
    match earliest
    case None => forall t :: !Live(entries, t)
    case Some(d) => (exists t :: Live(entries, t) && entries[t].deadline == d) && forall t :: Live(entries, t) ==> d <= entries[t].deadline
  }

  /** The loop of expire. */
  method Sweep(entries: Entries, now: Time) returns (table: Entries, earliest: Option<Time>)
    ensures table == ExpireAll(entries, now) && IsEarliest(table, earliest)
  {
    hide ExpireAll, IsEarliest;
    table, earliest := entries, None;
    ghost var first: Token := 0;
    var rest := entries.Keys;
    while rest != {}
      invariant rest <= table.Keys == entries.Keys
      invariant forall t :: t in table ==>
        table[t] == if t !in rest && entries[t].deadline <= now then entries[t].(cancelled := true) else entries[t]
      invariant earliest.None? ==> forall t :: t in table && t !in rest ==> table[t].cancelled
      invariant earliest.Some? ==> first in table && first !in rest && !table[first].cancelled && table[first].deadline == earliest.value
      invariant earliest.Some? ==> forall t :: t in table && t !in rest && !table[t].cancelled ==> earliest.value <= table[t].deadline
      decreases |rest|
    {
      var t :| t in rest;
      rest := rest - {t};
      if !table[t].cancelled {
        if table[t].deadline <= now {
          table := table[t := table[t].(cancelled := true)];
        } else if earliest.None? || table[t].deadline < earliest.value {
          earliest, first := Some(table[t].deadline), t;
        }
      }
    }
    Swept(entries, now, table, earliest, first);
  }

  lemma Swept(entries: Entries, now: Time, table: Entries, earliest: Option<Time>, first: Token)
    requires table.Keys == entries.Keys
    requires forall t :: t in table ==> table[t] == if entries[t].deadline <= now then entries[t].(cancelled := true) else entries[t]
    requires earliest.None? ==> forall t :: t in table ==> table[t].cancelled
    requires earliest.Some? ==> first in table && !table[first].cancelled && table[first].deadline == earliest.value
    requires earliest.Some? ==> forall t :: t in table && !table[t].cancelled ==> earliest.value <= table[t].deadline
    ensures table == ExpireAll(entries, now) && IsEarliest(table, earliest)
  {
    assert earliest.Some? ==> Live(table, first);
  }

  class LeaseTable {
    var entries: Entries

    constructor ()
      ensures entries == map[]
    {
      entries := map[];
    }

    method Insert(run: RunId, token: Token, deadline: Time)
      modifies this
      ensures entries == old(entries)[token := Entry(run, deadline, false)]
    {
      entries := entries[token := Entry(run, deadline, false)];
    }

    /** The function insert hands back. */
    method Release(token: Token)
      modifies this
      ensures entries == old(entries) - {token}
    {
      entries := map t | t in entries && t != token :: entries[t];
    }

    /** The live claims, as two parallel lists. */
    method Snapshot() returns (runs: seq<RunId>, tokens: seq<Token>)
      ensures |runs| == |tokens|
      ensures forall i, j :: 0 <= i < j < |tokens| ==> tokens[i] != tokens[j]
      ensures forall i :: 0 <= i < |tokens| ==> tokens[i] in LiveRuns(entries) && runs[i] == LiveRuns(entries)[tokens[i]]
      ensures forall t :: t in LiveRuns(entries) ==> t in tokens
    {
      runs, tokens := [], [];
      var rest := entries.Keys;
      while rest != {}
        invariant rest <= entries.Keys && |runs| == |tokens|
        invariant forall i, j :: 0 <= i < j < |tokens| ==> tokens[i] != tokens[j]
        invariant forall i :: 0 <= i < |tokens| ==> tokens[i] !in rest && tokens[i] in LiveRuns(entries) && runs[i] == LiveRuns(entries)[tokens[i]]
        invariant forall t :: t in LiveRuns(entries) && t !in rest ==> t in tokens
        decreases |rest|
      {
        var t :| t in rest;
        if !entries[t].cancelled {
          runs, tokens := runs + [entries[t].run], tokens + [t];
        }
        rest := rest - {t};
      }
    }

    method ApplyRenewal(sent: seq<Token>, renewed: set<Token>, deadline: Time)
      modifies this
      ensures entries == Confirm(old(entries), (set t | t in sent), renewed, deadline)
    {
      var i := 0;
      while i < |sent|
        invariant 0 <= i <= |sent|
        invariant entries == Confirm(old(entries), (set t | t in sent[..i]), renewed, deadline)
      {
        var t := sent[i];
        assert sent[..i + 1] == sent[..i] + [t];
        if t in entries {
          if t in renewed {
            entries := entries[t := entries[t].(deadline := deadline)];
          } else {
            entries := entries[t := entries[t].(cancelled := true)];
          }
        }
        i := i + 1;
      }
      assert sent[..|sent|] == sent;
    }

    /** Cancels what is past its deadline; `earliest` is the next deadline among the rest. */
    method Expire(now: Time) returns (earliest: Option<Time>)
      modifies this
      ensures entries == ExpireAll(old(entries), now)
      ensures IsEarliest(entries, earliest)
    {
      entries, earliest := Sweep(entries, now);
    }
  }

  /* ---- the heartbeat ---- */

  /** heartbeatLoop over its table, one leg at a time: the table can change between the legs. */
  class Heartbeat {
    const every: nat
    const ttl: nat
    const table: LeaseTable
    var nextRenewal: Time

    constructor (every: nat, ttl: nat, table: LeaseTable, now: Time)
      requires every < ttl
      ensures this.every == every && this.ttl == ttl && this.table == table && nextRenewal == now + every
    {
      this.every, this.ttl, this.table, nextRenewal := every, ttl, table, now + every;
    }

    /** Arms the timer: never past the next renewal, and never past a confirmed deadline. */
    method Arm(now: Time) returns (wakeAt: Time)
      modifies table
      ensures table.entries == ExpireAll(old(table.entries), now)
      ensures wakeAt <= nextRenewal && forall t :: Live(table.entries, t) ==> wakeAt <= table.entries[t].deadline
      ensures wakeAt == nextRenewal || exists t :: Live(table.entries, t) && table.entries[t].deadline == wakeAt
    {
      wakeAt := nextRenewal;
      var earliest := table.Expire(now);
      if earliest.Some? && earliest.value < wakeAt {
        wakeAt := earliest.value;
      }
    }

    /** The timer fired: too early it does nothing; otherwise it takes what to renew and until when to wait. */
    method Fire(now: Time) returns (runs: seq<RunId>, tokens: seq<Token>, bound: Time)
      modifies this, table
      ensures now < old(nextRenewal) ==> tokens == [] && nextRenewal == old(nextRenewal) && table.entries == old(table.entries)
      ensures now >= old(nextRenewal) ==> nextRenewal == now + every && table.entries == ExpireAll(old(table.entries), now)
      ensures now >= old(nextRenewal) ==> forall t :: t in tokens <==> Live(table.entries, t)
      ensures |runs| == |tokens| && forall i :: 0 <= i < |tokens| ==> Live(table.entries, tokens[i]) && runs[i] == table.entries[tokens[i]].run
      ensures tokens != [] ==> now < bound && forall t :: Live(table.entries, t) ==> bound <= table.entries[t].deadline
    {
      runs, tokens, bound := [], [], now;
      if now < nextRenewal {
        return;
      }
      nextRenewal := now + every;
      var earliest := table.Expire(now);
      runs, tokens := table.Snapshot();
      assert forall t :: t in LiveRuns(table.entries) <==> Live(table.entries, t);
      assert tokens != [] ==> Live(table.entries, tokens[0]);
      bound := if earliest.Some? then earliest.value else now + ttl;
    }
  }

  /* ---- whole runs of the heartbeat, interleaved with claims coming and going ---- */

  /** `pending` is a renewal that was sent for `tokens` at `at` and not answered yet. */
  datatype Renewal = Renewal(tokens: set<Token>, at: Time)

  datatype Beat = Beat(entries: Entries, nextRenewal: Time, pending: Option<Renewal>)

  datatype Pulse =
    | Claimed(token: Token, run: RunId, started: Time)
    | Released(token: Token)
    | Woke(now: Time)
    | Sent(now: Time)
    | Answered(renewed: set<Token>)
    | GotError

  /** The heartbeat itself is one loop: it wakes and sends only when no renewal is pending. */
  predicate Possible(b: Beat, e: Pulse) {
    match e
    case Claimed(t, _, _) => t !in b.entries
    case Released(_) => true
    case Woke(_) => b.pending.None?
    case Sent(now) => b.pending.None? && b.nextRenewal <= now
    case Answered(_) => b.pending.Some?
    case GotError => b.pending.Some?
  }

  function Happened(b: Beat, e: Pulse, every: nat, ttl: nat): Beat
    requires Possible(b, e)
  {
    match e
    case Claimed(t, run, started) => b.(entries := b.entries[t := Entry(run, started + ttl, false)])
    case Released(t) => b.(entries := b.entries - {t})
    case Woke(now) => b.(entries := ExpireAll(b.entries, now))
    case Sent(now) =>
      var entries := ExpireAll(b.entries, now);
      Beat(entries, now + every, Some(Renewal(LiveRuns(entries).Keys, now)))
    case Answered(renewed) => b.(entries := Confirm(b.entries, b.pending.value.tokens, renewed, b.pending.value.at + ttl), pending := None)
    case GotError => b.(pending := None)
  }

  predicate IsRun(beats: seq<Beat>, events: seq<Pulse>, every: nat, ttl: nat) {
    && |beats| == |events| + 1
    && forall i :: 0 <= i < |events| ==> Possible(beats[i], events[i]) && beats[i + 1] == Happened(beats[i], events[i], every, ttl)
  }

  predicate IsRenewing(b: Beat, t: Token) {
    b.pending.Some? && t in b.pending.value.tokens
  }

  /** The event finds the claim past its deadline, or answers a renewal of it without it. */
  predicate Lapses(b: Beat, e: Pulse, t: Token) {
    || ((e.Woke? || e.Sent?) && t in b.entries && b.entries[t].deadline <= e.now)
    || (e.Answered? && IsRenewing(b, t) && t !in e.renewed)
  }

  /** What an event does to one entry of the table, and what a pass sends. */
  lemma EntryStep(b: Beat, e: Pulse, every: nat, ttl: nat, t: Token)
    requires Possible(b, e)
    ensures var after := Happened(b, e, every, ttl);
            && (t in after.entries <==> (t in b.entries && e != Released(t)) || (e.Claimed? && e.token == t))
            && (e.Claimed? && e.token == t ==> after.entries[t] == Entry(e.run, e.started + ttl, false))
            && (t in b.entries && t in after.entries ==>
                  && after.entries[t].run == b.entries[t].run
                  && (after.entries[t].cancelled <==> b.entries[t].cancelled || Lapses(b, e, t))
                  && after.entries[t].deadline ==
                     if e.Answered? && IsRenewing(b, t) && t in e.renewed then b.pending.value.at + ttl else b.entries[t].deadline)
            && (e.Sent? ==> after.nextRenewal == e.now + every && after.pending.Some? && after.pending.value.at == e.now)
            && (e.Sent? ==> (t in after.pending.value.tokens <==> Live(after.entries, t)))
            && (!e.Sent? ==> after.nextRenewal == b.nextRenewal)
            && (after.pending.Some? <==> e.Sent? || (b.pending.Some? && !e.Answered? && !e.GotError?))
  {
  }

  /** The claim came in with event `k` and nothing has ended it before state `i`. */
  predicate HeldSince(beats: seq<Beat>, events: seq<Pulse>, k: nat, i: nat, t: Token) {
    && k < i <= |events| < |beats| && events[k].Claimed? && events[k].token == t
    && forall m :: k < m < i ==> events[m] != Released(t) && !Lapses(beats[m], events[m], t)
  }

  /** Over every run of the heartbeat from an empty table: a claim is live exactly when it came in, was not released, was
      not found past its deadline and was not left out of an answer since. */
  lemma {:induction false} LiveExactly(beats: seq<Beat>, events: seq<Pulse>, every: nat, ttl: nat, i: nat, t: Token)
    requires IsRun(beats, events, every, ttl) && i <= |events| && beats[0].entries == map[]
    ensures Live(beats[i].entries, t) <==> exists k: nat :: HeldSince(beats, events, k, i, t)
  {
    hide Happened;
    if i == 0 {
    } else {
      LiveExactly(beats, events, every, ttl, i - 1, t);
      assert Possible(beats[i - 1], events[i - 1]);
      EntryStep(beats[i - 1], events[i - 1], every, ttl, t);
      if Live(beats[i].entries, t) {
        if events[i - 1].Claimed? && events[i - 1].token == t {
          assert HeldSince(beats, events, i - 1, i, t);
        } else {
          var k: nat :| HeldSince(beats, events, k, i - 1, t);
          assert HeldSince(beats, events, k, i, t);
        }
      }
      if k: nat :| HeldSince(beats, events, k, i, t) {
        if k < i - 1 {
          assert HeldSince(beats, events, k, i - 1, t);
        }
      }
    }
  }

  /** Passes are at least an interval apart. */
  lemma {:induction false} PassesAreSpaced(beats: seq<Beat>, events: seq<Pulse>, every: nat, ttl: nat, i: nat, j: nat)
    requires IsRun(beats, events, every, ttl) && i < j < |events| && events[i].Sent? && events[j].Sent?
    ensures events[i].now + every <= events[j].now
  {
    hide Happened;
    RenewalStands(beats, events, every, ttl, i, j);
    assert Possible(beats[j], events[j]);
  }

  lemma {:induction false} RenewalStands(beats: seq<Beat>, events: seq<Pulse>, every: nat, ttl: nat, i: nat, j: nat)
    requires IsRun(beats, events, every, ttl) && i < j <= |events| && events[i].Sent?
    ensures events[i].now + every <= beats[j].nextRenewal
    decreases j
  {
    hide Happened;
    assert Possible(beats[j - 1], events[j - 1]);
    EntryStep(beats[j - 1], events[j - 1], every, ttl, 0);
    if i < j - 1 {
      RenewalStands(beats, events, every, ttl, i, j - 1);
    } else {
    }
  }

  /** Nothing takes the claim away: it is not released, every answer to a renewal it is part of confirms it, and the
      heartbeat looks at the table no later than `late` after each renewal instant. Renewals may fail. */
  predicate Kind(b: Beat, e: Pulse, t: Token, late: nat) {
    match e
    case Released(u) => u != t
    case Woke(now) => now <= b.nextRenewal + late
    case Sent(now) => now <= b.nextRenewal + late
    case Answered(renewed) => IsRenewing(b, t) ==> t in renewed
    case GotError => true
    case Claimed(_, _, _) => true
  }

  /** How many renewals of the claim have failed in a row after this event, `failed` having failed before it. */
  function Failures(b: Beat, e: Pulse, t: Token, failed: nat): nat {
    if !IsRenewing(b, t) then failed else if e.Answered? then 0 else if e.GotError? then failed + 1 else failed
  }

  /** The last pass was at most `failed` intervals after the claim was started or confirmed, and one more
      while it is being renewed. */
  predicate Current(b: Beat, t: Token, every: nat, ttl: nat, late: nat, failed: nat) {
    && Live(b.entries, t)
    && var confirmed := b.entries[t].deadline - ttl;
       if IsRenewing(b, t) then
         b.nextRenewal == b.pending.value.at + every && b.pending.value.at - confirmed <= Span(failed + 1, every + late)
       else b.nextRenewal - every - confirmed <= Span(failed, every + late)
  }

  /** `n` times `step`. */
  function Span(n: nat, step: nat): nat {
    if n == 0 then 0 else Span(n - 1, step) + step
  }

  lemma {:induction false} SpanGrows(m: nat, n: nat, step: nat)
    requires m <= n
    ensures Span(m, step) <= Span(n, step)
  {
    if m == n {
    } else {
      SpanGrows(m, n - 1, step);
    }
  }

  lemma {:induction false} SpanIsProduct(n: nat, step: nat)
    ensures Span(n, step) == n * step
  {
    if n == 0 {
    } else {
      SpanIsProduct(n - 1, step);
    }
  }

  lemma CurrentStep(b: Beat, e: Pulse, t: Token, every: nat, ttl: nat, late: nat, failed: nat, most: nat)
    requires failed <= most && Span(most + 1, every + late) < ttl
    requires Possible(b, e) && Kind(b, e, t, late) && Current(b, t, every, ttl, late, failed)
    ensures Current(Happened(b, e, every, ttl), t, every, ttl, late, Failures(b, e, t, failed))
  {
    SpanGrows(failed + 1, most + 1, every + late);
    hide Span;
    assert Span(failed + 1, every + late) == Span(failed, every + late) + every + late by {
      SpanNext(failed, every + late);
    }
  }

  lemma SpanNext(n: nat, step: nat)
    ensures Span(n + 1, step) == Span(n, step) + step && Span(0, step) == 0
  {
  }

  function FailuresAfter(beats: seq<Beat>, events: seq<Pulse>, t: Token, i: nat): nat
    requires |beats| == |events| + 1 && i <= |events|
  {
    if i == 0 then 0 else Failures(beats[i - 1], events[i - 1], t, FailuresAfter(beats, events, t, i - 1))
  }

  /** A run in which the claim is inserted no earlier than the last pass, and then nothing takes it away and at most
      `most` of its renewals fail in a row. */
  ghost predicate IsSteady(beats: seq<Beat>, events: seq<Pulse>, every: nat, ttl: nat, late: nat, most: nat, t: Token) {
    && IsRun(beats, events, every, ttl) && events != [] && !IsRenewing(beats[0], t)
    && events[0].Claimed? && events[0].token == t && beats[0].nextRenewal - every <= events[0].started
    && (forall k :: 1 <= k < |events| ==> Kind(beats[k], events[k], t, late))
    && (forall k :: 0 <= k < |events| ==> FailuresAfter(beats, events, t, k) <= most)
  }

  ghost predicate LivesOn(beats: seq<Beat>, t: Token) {
    forall i :: 1 <= i < |beats| ==> Live(beats[i].entries, t)
  }

  lemma {:induction false} StaysCurrent(beats: seq<Beat>, events: seq<Pulse>, every: nat, ttl: nat, late: nat, most: nat, t: Token, i: nat)
    requires IsSteady(beats, events, every, ttl, late, most, t) && Span(most + 1, every + late) < ttl && 1 <= i <= |events|
    ensures Current(beats[i], t, every, ttl, late, FailuresAfter(beats, events, t, i))
  {
    if i == 1 {
      StartsCurrent(beats[0], events[0], every, ttl, late);
    } else {
      StaysCurrent(beats, events, every, ttl, late, most, t, i - 1);
      CurrentStep(beats[i - 1], events[i - 1], t, every, ttl, late, FailuresAfter(beats, events, t, i - 1), most);
    }
  }

  lemma StartsCurrent(b: Beat, e: Pulse, every: nat, ttl: nat, late: nat)
    requires e.Claimed? && Possible(b, e) && !IsRenewing(b, e.token) && b.nextRenewal - every <= e.started
    ensures Current(Happened(b, e, every, ttl), e.token, every, ttl, late, 0)
  {
  }

  /** Such a claim is never cancelled by its own worker when (most + 1) * (every + late) is below the lease length. */
  lemma SteadyClaimLives(beats: seq<Beat>, events: seq<Pulse>, every: nat, ttl: nat, late: nat, most: nat, t: Token)
    requires IsSteady(beats, events, every, ttl, late, most, t) && (most + 1) * (every + late) < ttl
    ensures LivesOn(beats, t)
  {
    SpanIsProduct(most + 1, every + late);
    forall i | 1 <= i < |beats| ensures Live(beats[i].entries, t) {
      StaysCurrent(beats, events, every, ttl, late, most, t, i);
    }
  }

  /** While a renewal is pending it stays the one that was sent. */
  lemma {:induction false} PendingStays(beats: seq<Beat>, events: seq<Pulse>, every: nat, ttl: nat, pending: Renewal)
    requires IsRun(beats, events, every, ttl) && beats[0].pending == Some(pending)
    requires forall i :: 0 <= i < |events| ==> !events[i].Answered? && !events[i].GotError?
    ensures beats[|events|].pending == Some(pending)
    decreases |events|
  {
    if events == [] {
    } else {
      PendingStays(beats[1..], events[1..], every, ttl, pending);
    }
  }

  /** A claim that came after a renewal was sent is untouched by its answer, whatever the answer is. */
  lemma LateClaimUntouched(beats: seq<Beat>, events: seq<Pulse>, every: nat, ttl: nat, t: Token)
    requires IsRun(beats, events, every, ttl) && |events| >= 2 && events[0].Sent? && events[|events| - 1].Answered?
    requires forall i :: 1 <= i < |events| - 1 ==> !events[i].Answered? && !events[i].GotError?
    requires t !in beats[0].entries && t in beats[|events| - 1].entries
    ensures t in beats[|events|].entries && beats[|events|].entries[t] == beats[|events| - 1].entries[t]
  {
    var n := |events| - 1;
    var middle, between := beats[1..n + 1], events[1..n];
    forall i | 0 <= i < |between|
      ensures Possible(middle[i], between[i]) && middle[i + 1] == Happened(middle[i], between[i], every, ttl)
    {
      assert between[i] == events[i + 1] && middle[i] == beats[i + 1];
    }
    PendingStays(middle, between, every, ttl, beats[1].pending.value);
    assert beats[n].pending == beats[1].pending;
  }

  /* ---- the bound is exact ---- */

  lemma {:induction false} FailuresOfPrefix(beats: seq<Beat>, events: seq<Pulse>, b: Beat, e: Pulse, t: Token, i: nat)
    requires |beats| == |events| + 1 && i <= |events|
    ensures FailuresAfter(beats + [b], events + [e], t, i) == FailuresAfter(beats, events, t, i)
  {
    if i == 0 {
    } else {
      FailuresOfPrefix(beats, events, b, e, t, i - 1);
      assert (beats + [b])[i - 1] == beats[i - 1] && (events + [e])[i - 1] == events[i - 1];
    }
  }

  /** One more event, when the failures so far are within the bound. */
  lemma SteadyNext(beats: seq<Beat>, events: seq<Pulse>, every: nat, ttl: nat, late: nat, most: nat, t: Token, e: Pulse)
    requires IsSteady(beats, events, every, ttl, late, most, t) && FailuresAfter(beats, events, t, |events|) <= most
    requires Possible(beats[|events|], e) && Kind(beats[|events|], e, t, late)
    ensures IsSteady(beats + [Happened(beats[|events|], e, every, ttl)], events + [e], every, ttl, late, most, t)
  {
    hide Possible, Kind, Happened;
    var b := Happened(beats[|events|], e, every, ttl);
    var longer, more := beats + [b], events + [e];
    forall k | 0 <= k < |more|
      ensures Possible(longer[k], more[k]) && longer[k + 1] == Happened(longer[k], more[k], every, ttl)
      ensures 1 <= k ==> Kind(longer[k], more[k], t, late)
      ensures FailuresAfter(longer, more, t, k) <= most
    {
      FailuresOfPrefix(beats, events, b, e, t, k);
      if k < |events| {
        assert longer[k] == beats[k] && longer[k + 1] == beats[k + 1] && more[k] == events[k];
      }
    }
  }

  /** A claim inserted at 0, and `n` passes, each as late as allowed and answered with an error. */
  lemma {:induction false} FailingRun(every: nat, ttl: nat, late: nat, most: nat, n: nat) returns (beats: seq<Beat>, events: seq<Pulse>)
    requires n <= most
    ensures IsSteady(beats, events, every, ttl, late, most, 0) && FailuresAfter(beats, events, 0, |events|) <= n
    ensures var b := beats[|events|];
            b.pending.None? && b.nextRenewal == Span(n, every + late) + every && 0 in b.entries && b.entries[0].deadline == ttl
  {
    if n == 0 {
      var b := Beat(map[], every, None);
      var e := Claimed(0, "", 0);
      beats, events := [b, Happened(b, e, every, ttl)], [e];
      assert FailuresAfter(beats, events, 0, 0) == 0;
    } else {
      beats, events := FailingRun(every, ttl, late, most, n - 1);
      beats, events := FailedPass(beats, events, every, ttl, late, most, n - 1);
    }
  }

  lemma FailedPass(beats: seq<Beat>, events: seq<Pulse>, every: nat, ttl: nat, late: nat, most: nat, n: nat)
    returns (longer: seq<Beat>, more: seq<Pulse>)
    requires n < most && IsSteady(beats, events, every, ttl, late, most, 0) && FailuresAfter(beats, events, 0, |events|) <= n
    requires var b := beats[|events|];
             b.pending.None? && b.nextRenewal == Span(n, every + late) + every && 0 in b.entries && b.entries[0].deadline == ttl
    ensures IsSteady(longer, more, every, ttl, late, most, 0) && FailuresAfter(longer, more, 0, |more|) <= n + 1
    ensures var b := longer[|more|];
            b.pending.None? && b.nextRenewal == Span(n + 1, every + late) + every && 0 in b.entries && b.entries[0].deadline == ttl
  {
    hide IsSteady, Span;
    SpanNext(n, every + late);
    SteadyShape(beats, events, every, ttl, late, most);
    var e := Sent(Span(n + 1, every + late));
    var b := Happened(beats[|events|], e, every, ttl);
    SteadyNext(beats, events, every, ttl, late, most, 0, e);
    FailuresOfPrefix(beats, events, b, e, 0, |events|);
    longer, more := beats + [b], events + [e];
    assert FailuresAfter(longer, more, 0, |more|) <= n;
    var c := Happened(b, GotError, every, ttl);
    SteadyNext(longer, more, every, ttl, late, most, 0, GotError);
    FailuresOfPrefix(longer, more, c, GotError, 0, |more|);
    longer, more := longer + [c], more + [GotError];
    assert FailuresAfter(longer, more, 0, |more|) <= n + 1;
  }

  lemma SteadyShape(beats: seq<Beat>, events: seq<Pulse>, every: nat, ttl: nat, late: nat, most: nat)
    requires IsSteady(beats, events, every, ttl, late, most, 0)
    ensures |beats| == |events| + 1
  {
  }

  /** Above the bound the next pass comes too late. */
  lemma OverdueRun(every: nat, ttl: nat, late: nat, most: nat) returns (beats: seq<Beat>, events: seq<Pulse>)
    requires Span(most + 1, every + late) >= ttl
    ensures IsSteady(beats, events, every, ttl, late, most, 0) && !LivesOn(beats, 0)
  {
    beats, events := FailingRun(every, ttl, late, most, most);
    SpanNext(most, every + late);
    var e := Sent(Span(most + 1, every + late));
    SteadyNext(beats, events, every, ttl, late, most, 0, e);
    var b := Happened(beats[|events|], e, every, ttl);
    beats, events := beats + [b], events + [e];
    assert !Live(beats[|events|].entries, 0);
  }

  /** The bound is exact, over whole runs and for every number of failures: it holds if and only if in every such run
      the claim lives on. With no failure and nothing late it is the check in New. */
  lemma PunctualityIsExact(every: nat, ttl: nat, late: nat, most: nat)
    ensures (most + 1) * (every + late) < ttl <==>
            forall beats, events, t :: IsSteady(beats, events, every, ttl, late, most, t) ==> LivesOn(beats, t)
  {
    SpanIsProduct(most + 1, every + late);
    hide IsSteady, LivesOn;
    if (most + 1) * (every + late) < ttl {
      forall beats, events, t | IsSteady(beats, events, every, ttl, late, most, t) ensures LivesOn(beats, t) {
        SteadyClaimLives(beats, events, every, ttl, late, most, t);
      }
    } else {
      var beats, events := OverdueRun(every, ttl, late, most);
    }
  }
}
