/** The row selection of a claim: `ORDER BY scheduled_at ... FOR UPDATE SKIP LOCKED LIMIT n`. */
module ClaimSelection {
  import opened Schema

  /** Whose rows a claim may take: anyone's (`claim`) or one consumer's (`claimForConsumer`). */
  datatype Scope = Everyone | OneConsumer(consumer: Id, tenant: Id)

  /** The WHERE clause, the join with `events`, and SKIP LOCKED. */
  predicate Claimable(t: Tables, scope: Scope, locked: set<Id>, now: Time, d: Id) {
    && d in t.deliveries
    && d !in locked
    && var row := t.deliveries[d];
    && row.status == Pending
    && row.scheduledAt <= now
    && row.event in t.events
    && (scope.OneConsumer? ==> row.consumer == scope.consumer && row.tenant == scope.tenant)
  }

  ghost function ClaimableRows(t: Tables, scope: Scope, locked: set<Id>, now: Time): set<Id> {
    set d | d in t.deliveries && Claimable(t, scope, locked, now, d)
  }

  ghost predicate Distinct(s: seq<Id>) {
    forall i, j :: 0 <= i < j < |s| ==> s[i] != s[j]
  }

  ghost predicate BySchedule(t: Tables, s: seq<Id>)
    requires forall d :: d in s ==> d in t.deliveries
  {
    forall i, j :: 0 <= i < j < |s| ==> t.deliveries[s[i]].scheduledAt <= t.deliveries[s[j]].scheduledAt
  }

  ghost function Min(a: nat, b: nat): nat { if a < b then a else b }

  /** What a claim may select. Ties in `scheduled_at` and the rows locked by others are free. */
  ghost predicate ClaimAllowed(t: Tables, scope: Scope, locked: set<Id>, now: Time, limit: nat, rows: seq<Id>) {
    && Distinct(rows)
    && (forall d :: d in rows ==> Claimable(t, scope, locked, now, d))
    && BySchedule(t, rows)
    && |rows| == Min(limit, |ClaimableRows(t, scope, locked, now)|)
    && (forall d, r :: d !in rows && Claimable(t, scope, locked, now, d) && r in rows ==>
          t.deliveries[r].scheduledAt <= t.deliveries[d].scheduledAt)
  }

  // ---------------------------------------------------------------- the selection algorithm

  predicate Listed(t: Tables, s: seq<Id>) {
    forall i :: 0 <= i < |s| ==> s[i] in t.deliveries
  }

  /** ORDER BY scheduled_at ASC; rows with equal times keep the order in which they were read. */
  function InsertBySchedule(t: Tables, d: Id, s: seq<Id>): (r: seq<Id>)
    requires d in t.deliveries && Listed(t, s)
    ensures Listed(t, r) && multiset(r) == multiset{d} + multiset(s)
  {
    if s == [] then [d]
    else if t.deliveries[d].scheduledAt <= t.deliveries[s[0]].scheduledAt then [d] + s
    else
      assert s == [s[0]] + s[1..];
      [s[0]] + InsertBySchedule(t, d, s[1..])
  }

  function SortBySchedule(t: Tables, s: seq<Id>): (r: seq<Id>)
    requires Listed(t, s)
    ensures Listed(t, r) && multiset(r) == multiset(s)
  {
    if s == [] then [] else
      assert s == [s[0]] + s[1..];
      InsertBySchedule(t, s[0], SortBySchedule(t, s[1..]))
  }

  /** The rows that satisfy WHERE and are not locked, in the given order. */
  function FilterClaimable(t: Tables, scope: Scope, locked: set<Id>, now: Time, s: seq<Id>): (r: seq<Id>)
    ensures forall d :: d in r <==> d in s && Claimable(t, scope, locked, now, d)
    ensures Distinct(s) ==> Distinct(r)
    ensures Listed(t, r)
  {
    if s == [] then [] else
      assert s == [s[0]] + s[1..];
      var rest := FilterClaimable(t, scope, locked, now, s[1..]);
      if Claimable(t, scope, locked, now, s[0]) then [s[0]] + rest else rest
  }

  /** The selected rows, for a table read in the order `scan`. */
  function SelectRows(t: Tables, scope: Scope, locked: set<Id>, now: Time, limit: nat, scan: seq<Id>): seq<Id> {
    var due := FilterClaimable(t, scope, locked, now, scan);
    var sorted := SortBySchedule(t, due);
    if |sorted| <= limit then sorted else sorted[..limit]
  }

  lemma {:induction false} InsertKeepsOrder(t: Tables, d: Id, s: seq<Id>)
    requires d in t.deliveries && Listed(t, s) && BySchedule(t, s)
    ensures BySchedule(t, InsertBySchedule(t, d, s))
  {
    if s != [] && t.deliveries[d].scheduledAt > t.deliveries[s[0]].scheduledAt {
      var r := InsertBySchedule(t, d, s[1..]);
      InsertKeepsOrder(t, d, s[1..]);
      forall j | 0 <= j < |r| ensures t.deliveries[s[0]].scheduledAt <= t.deliveries[r[j]].scheduledAt {
        assert r[j] in multiset(r);
        assert r[j] == d || r[j] in s[1..];
      }
    }
  }

  lemma {:induction false} SortOrders(t: Tables, s: seq<Id>)
    requires Listed(t, s)
    ensures BySchedule(t, SortBySchedule(t, s))
  {
    if s != [] {
      SortOrders(t, s[1..]);
      InsertKeepsOrder(t, s[0], SortBySchedule(t, s[1..]));
    }
  }

  ghost function Elements(s: seq<Id>): set<Id> { set d | d in s }

  lemma DistinctTail(x: Id, rest: seq<Id>)
    ensures Distinct([x] + rest) <==> Distinct(rest) && x !in rest
  {
    var s := [x] + rest;
    assert forall j :: 0 <= j < |rest| ==> rest[j] == s[j + 1];
    if Distinct(s) {
      forall i, j | 0 <= i < j < |rest| ensures rest[i] != rest[j] { assert s[i + 1] != s[j + 1]; }
      forall j | 0 <= j < |rest| ensures rest[j] != x { assert s[0] != s[j + 1]; }
    }
  }

  lemma {:induction false} DistinctCount(s: seq<Id>)
    ensures Distinct(s) <==> |Elements(s)| == |s|
    ensures |Elements(s)| <= |s|
  {
    if s != [] {
      var x, rest := s[0], s[1..];
      assert s == [x] + rest;
      DistinctCount(rest);
      DistinctTail(x, rest);
      assert Elements(s) == Elements(rest) + {x};
      assert x in rest <==> x in Elements(rest);
    }
  }

  lemma PermutationDistinct(s: seq<Id>, t: seq<Id>)
    requires multiset(s) == multiset(t) && Distinct(s)
    ensures Distinct(t) && |s| == |t| && forall d :: d in s <==> d in t
  {
    assert |multiset(s)| == |multiset(t)|;
    forall d ensures d in s <==> d in t {
      assert d in s <==> d in multiset(s);
      assert d in t <==> d in multiset(t);
    }
    DistinctCount(s);
    DistinctCount(t);
    assert Elements(s) == Elements(t);
  }

  lemma PrefixIsEarliest(t: Tables, s: seq<Id>, n: nat)
    requires Listed(t, s) && Distinct(s) && BySchedule(t, s) && n <= |s|
    ensures forall d, r :: d in s && d !in s[..n] && r in s[..n] ==>
      t.deliveries[r].scheduledAt <= t.deliveries[d].scheduledAt
  {
    forall d, r | d in s && d !in s[..n] && r in s[..n]
      ensures t.deliveries[r].scheduledAt <= t.deliveries[d].scheduledAt
    {
      assert s == s[..n] + s[n..];
      var i :| 0 <= i < |s[n..]| && s[n..][i] == d;
      var j :| 0 <= j < n && s[j] == r;
      assert s[n + i] == d;
    }
  }

  /** The selection meets its specification, whatever the scan order and whoever holds locks. */
  lemma {:induction false} SelectionAllowed(t: Tables, scope: Scope, locked: set<Id>, now: Time, limit: nat,
                                            scan: seq<Id>)
    requires Distinct(scan) && forall d :: d in t.deliveries ==> d in scan
    ensures ClaimAllowed(t, scope, locked, now, limit, SelectRows(t, scope, locked, now, limit, scan))
  {
    var due := FilterClaimable(t, scope, locked, now, scan);
    var sorted := SortBySchedule(t, due);
    SortOrders(t, due);
    PermutationDistinct(due, sorted);
    forall d ensures d in sorted <==> Claimable(t, scope, locked, now, d) {
      assert Claimable(t, scope, locked, now, d) ==> d in scan;
    }
    SortedPrefixAllowed(t, scope, locked, now, limit, sorted);
    assert SelectRows(t, scope, locked, now, limit, scan) == sorted[..Min(limit, |sorted|)];
  }

  lemma SortedPrefixAllowed(t: Tables, scope: Scope, locked: set<Id>, now: Time, limit: nat, sorted: seq<Id>)
    requires Listed(t, sorted) && Distinct(sorted) && BySchedule(t, sorted)
    requires forall d :: d in sorted <==> Claimable(t, scope, locked, now, d)
    ensures ClaimAllowed(t, scope, locked, now, limit, sorted[..Min(limit, |sorted|)])
  {
    var n := Min(limit, |sorted|);
    var rows := sorted[..n];
    DistinctCount(sorted);
    assert ClaimableRows(t, scope, locked, now) == Elements(sorted);
    assert |rows| == Min(limit, |ClaimableRows(t, scope, locked, now)|);
    assert forall d :: d in rows ==> d in sorted;
    PrefixIsEarliest(t, sorted, n);
  }
}
