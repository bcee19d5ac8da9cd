/** Single-match resolution: a rule names a collection of candidate elements
    (positions in a table) and a predicate, and proceeds only when exactly one
    candidate satisfies it. The whole collection is scanned, so that an
    ambiguous rule is reported rather than masked by encounter order. */
module Resolution {
  import opened Metadata

  datatype Match = Missing | Unique(id: nat) | Ambiguous

  /** The candidate `id` exists in `table` and satisfies `p`. */
  predicate Holds<E>(id: nat, table: seq<E>, p: E -> bool)
  {
    id < |table| && p(table[id])
  }

  /** Every satisfying candidate, in collection order: the reference definition. */
  function Matching<E>(ids: seq<nat>, table: seq<E>, p: E -> bool): seq<nat>
  {
    if ids == [] then []
    else (if Holds(ids[0], table, p) then [ids[0]] else []) + Matching(ids[1..], table, p)
  }

  /** Combines the verdict on one candidate with the verdict on the rest. */
  function Merge(first: Match, rest: Match): Match
  {
    match first
    case Missing => rest
    case Unique(_) => if rest.Missing? then first else Ambiguous
    case Ambiguous => Ambiguous
  }

  /** `Find`: scans every candidate and classifies the outcome. */
  function Classify<E>(ids: seq<nat>, table: seq<E>, p: E -> bool): (r: Match)
    ensures r.Unique? ==> r.id in ids && Holds(r.id, table, p)
  {
    if ids == [] then Missing
    else Merge(if Holds(ids[0], table, p) then Unique(ids[0]) else Missing, Classify(ids[1..], table, p))
  }

  function ToOption(m: Match): (r: Option<nat>)
    ensures r.Some? <==> m.Unique?
    ensures r.Some? ==> r.value == m.id
  {
    if m.Unique? then Some(m.id) else None
  }

  /** What a rule reports: a warning when nothing matched, an error when more than one did. */
  function Report(rule: string, m: Match): (r: seq<Diagnostic>)
    ensures m.Unique? <==> r == []
    ensures m.Missing? <==> r == [NoMatch(rule)]
    ensures m.Ambiguous? <==> r == [AmbiguousMatch(rule)]
  {
    match m
    case Missing => [NoMatch(rule)]
    case Unique(_) => []
    case Ambiguous => [AmbiguousMatch(rule)]
  }

  lemma {:induction false} MatchingMembers<E>(ids: seq<nat>, table: seq<E>, p: E -> bool, x: nat)
    ensures x in Matching(ids, table, p) <==> x in ids && Holds(x, table, p)
  {
    if ids != [] {
      MatchingMembers(ids[1..], table, p, x);
      assert ids == [ids[0]] + ids[1..];
    }
  }

  /** The classification is exact: nothing matched, exactly one candidate
      matched (and it is that one), or two or more matched. */
  lemma {:induction false} ClassifyCounts<E>(ids: seq<nat>, table: seq<E>, p: E -> bool)
    ensures var ms := Matching(ids, table, p);
      Classify(ids, table, p) ==
        if |ms| == 0 then Missing else if |ms| == 1 then Unique(ms[0]) else Ambiguous
  {
    if ids != [] {
      ClassifyCounts(ids[1..], table, p);
    }
  }

  /** What a rule logs is decided by how many candidates satisfy its predicate:
      nothing for exactly one, a no-match warning for none, an ambiguity error
      for two or more. */
  lemma {:induction false} ReportCounts<E>(rule: string, ids: seq<nat>, table: seq<E>, p: E -> bool)
    ensures Report(rule, Classify(ids, table, p)) == [] <==> |Matching(ids, table, p)| == 1
    ensures Report(rule, Classify(ids, table, p)) == [NoMatch(rule)] <==> |Matching(ids, table, p)| == 0
    ensures Report(rule, Classify(ids, table, p)) == [AmbiguousMatch(rule)] <==> |Matching(ids, table, p)| >= 2
  {
    ClassifyCounts(ids, table, p);
  }

  /** A unique match satisfies the predicate, belongs to the collection, and is
      the only candidate that satisfies the predicate. */
  lemma UniqueIsTheOnlyMatch<E>(ids: seq<nat>, table: seq<E>, p: E -> bool, x: nat)
    requires Classify(ids, table, p) == Unique(x)
    ensures x in ids && Holds(x, table, p)
    ensures forall y :: y in ids && Holds(y, table, p) ==> y == x
  {
    ClassifyCounts(ids, table, p);
    var ms := Matching(ids, table, p);
    assert ms == [x];
    MatchingMembers(ids, table, p, x);
    forall y | y in ids && Holds(y, table, p)
      ensures y == x
    {
      MatchingMembers(ids, table, p, y);
    }
  }

  /** Two tables on which the predicate gives the same verdict for every
      candidate are classified alike. */
  lemma {:induction false} ClassifySameVerdicts<E>(ids: seq<nat>, t1: seq<E>, t2: seq<E>, p: E -> bool, q: E -> bool)
    requires forall id :: id in ids ==> (Holds(id, t1, p) <==> Holds(id, t2, q))
    ensures Classify(ids, t1, p) == Classify(ids, t2, q)
  {
    if ids != [] {
      ClassifySameVerdicts(ids[1..], t1, t2, p, q);
    }
  }
}
