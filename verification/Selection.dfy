/** `ORDER BY rank, id LIMIT n` over row identifiers. */
module Selection {
  import opened Basics
  import opened Workflow
  import Text

  /** Row `a` sorts before row `b`. */
  predicate Before(rank: map<RunId, Time>, a: RunId, b: RunId)
    requires a in rank && b in rank
  {
    rank[a] < rank[b] || (rank[a] == rank[b] && Text.Less(a, b))
  }

  lemma BeforeTransitive(rank: map<RunId, Time>, a: RunId, b: RunId, c: RunId)
    requires a in rank && b in rank && c in rank && Before(rank, a, b) && Before(rank, b, c)
    ensures Before(rank, a, c)
  {
    if rank[a] == rank[b] == rank[c] {
      Text.LessTransitive(a, b, c);
    }
  }

  lemma BeforeTotal(rank: map<RunId, Time>, a: RunId, b: RunId)
    requires a in rank && b in rank
    ensures a == b || Before(rank, a, b) || Before(rank, b, a)
  {
    Text.LessTotal(a, b);
  }

  ghost predicate IsFirst(rank: map<RunId, Time>, candidates: set<RunId>, m: RunId)
    requires candidates <= rank.Keys
  {
    m in candidates && forall c :: c in candidates && c != m ==> Before(rank, m, c)
  }

  method First(rank: map<RunId, Time>, candidates: set<RunId>) returns (m: RunId)
    requires candidates != {} && candidates <= rank.Keys
    ensures IsFirst(rank, candidates, m)
  {
    m :| m in candidates;
    var rest := candidates - {m};
    while rest != {}
      invariant rest < candidates && m in candidates - rest
      invariant IsFirst(rank, candidates - rest, m)
      decreases |rest|
    {
      var c :| c in rest;
      BeforeTotal(rank, m, c);
      if Before(rank, c, m) {
        forall d | d in candidates - rest && d != m
          ensures Before(rank, c, d)
        {
          BeforeTransitive(rank, c, m, d);
        }
        m := c;
      }
      rest := rest - {c};
    }
    assert candidates - {} == candidates;
  }

  /** `order` lists the `limit` first candidates, in order. */
  ghost predicate Selects(rank: map<RunId, Time>, candidates: set<RunId>, limit: nat, order: seq<RunId>)
    requires candidates <= rank.Keys
  {
    && |order| == (if |candidates| <= limit then |candidates| else limit)
    && (forall i :: 0 <= i < |order| ==> order[i] in candidates)
    && (forall i, j :: 0 <= i < j < |order| ==> Before(rank, order[i], order[j]) && order[i] != order[j])
    && (forall i, c :: 0 <= i < |order| && c in candidates && c !in order ==> Before(rank, order[i], c))
  }

  method Take(rank: map<RunId, Time>, candidates: set<RunId>, limit: nat) returns (order: seq<RunId>)
    requires candidates <= rank.Keys
    ensures Selects(rank, candidates, limit, order)
  {
    order := [];
    var rest := candidates;
    while |order| < limit && rest != {}
      invariant rest <= candidates && |order| + |rest| == |candidates| && |order| <= limit
      invariant forall i :: 0 <= i < |order| ==> order[i] in candidates && order[i] !in rest
      invariant forall i, j :: 0 <= i < j < |order| ==> Before(rank, order[i], order[j]) && order[i] != order[j]
      invariant forall c :: c in candidates ==> c in rest || c in order
      invariant forall i, c :: 0 <= i < |order| && c in rest ==> Before(rank, order[i], c)
      decreases |rest|
    {
      var m := First(rank, rest);
      order := order + [m];
      rest := rest - {m};
    }
  }
}
