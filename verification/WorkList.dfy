/** Ordering the work a reconciliation pass picks up (`persistence/memory.py:362-388`): the
    eligible records sorted by `(updated_at, processing_id)`, cut to the limit. */
module WorkList {
  import opened Domain
  import opened Lifecycle
  import opened Repository

  predicate DistinctIds(rs: seq<Record>) {
    forall i, j :: 0 <= i < j < |rs| ==> rs[i].processingId != rs[j].processingId
  }

  function InsertRecord(r: Record, rs: seq<Record>): seq<Record> {
    if rs == [] || Before(r, rs[0]) then [r] + rs else [rs[0]] + InsertRecord(r, rs[1..])
  }

  function SortRecords(rs: seq<Record>): seq<Record> {
    if rs == [] then [] else InsertRecord(rs[0], SortRecords(rs[1..]))
  }

  lemma {:induction false} InsertKeeps(r: Record, rs: seq<Record>)
    requires SortedRecords(rs) && forall i :: 0 <= i < |rs| ==> rs[i].processingId != r.processingId
    ensures SortedRecords(InsertRecord(r, rs))
    ensures multiset(InsertRecord(r, rs)) == multiset(rs) + multiset{r}
  {
    if rs == [] {
    } else if Before(r, rs[0]) {
      assert multiset([r] + rs) == multiset{r} + multiset(rs);
    } else {
      InsertKeeps(r, rs[1..]);
      var tail := InsertRecord(r, rs[1..]);
      assert rs == [rs[0]] + rs[1..];
      forall k | 0 <= k < |tail| ensures Before(rs[0], tail[k]) {
        assert tail[k] in multiset(tail);
        assert tail[k] in multiset(rs[1..]) || tail[k] == r;
      }
    }
  }

  /** Sorting loses nothing, repeats nothing and puts the records in key order. */
  lemma {:induction false} SortKeeps(rs: seq<Record>)
    requires DistinctIds(rs)
    ensures SortedRecords(SortRecords(rs)) && multiset(SortRecords(rs)) == multiset(rs)
  {
    if rs != [] {
      SortKeeps(rs[1..]);
      var tail := SortRecords(rs[1..]);
      forall i | 0 <= i < |tail| ensures tail[i].processingId != rs[0].processingId {
        assert tail[i] in multiset(rs[1..]);
      }
      InsertKeeps(rs[0], tail);
      assert rs == [rs[0]] + rs[1..];
    }
  }

  /** The eligible records of a store, without order. */
  ghost predicate IsEligibleSet(s: Store, staleBefore: int, values: seq<Record>) {
    && DistinctIds(values)
    && (forall r :: r in values ==> r.processingId in s.records && s.records[r.processingId] == r && Eligible(s, r.processingId, staleBefore))
    && (forall pid :: pid in s.records && Eligible(s, pid, staleBefore) ==> s.records[pid] in values)
  }

  /** Sorting the eligible records and cutting the list is the work list. */
  lemma SortedCut(s: Store, limit: nat, staleBefore: int, values: seq<Record>)
    requires IsEligibleSet(s, staleBefore, values)
    ensures var sorted := SortRecords(values);
            IsWorkList(s, limit, staleBefore, if |sorted| <= limit then sorted else sorted[..limit])
  {
    hide Eligible, SortedRecords, SortRecords, IsWorkList;
    SortKeeps(values);
    var sorted := SortRecords(values);
    SameMembers(sorted, values);
    CutIs(s, limit, staleBefore, sorted);
  }

  lemma SameMembers(a: seq<Record>, b: seq<Record>)
    requires multiset(a) == multiset(b)
    ensures forall r :: r in a <==> r in b
  {
    forall r ensures r in a <==> r in b {
      assert r in a <==> r in multiset(a);
      assert r in b <==> r in multiset(b);
    }
  }

  lemma CutIs(s: Store, limit: nat, staleBefore: int, sorted: seq<Record>)
    requires SortedRecords(sorted)
    requires forall r :: r in sorted ==> r.processingId in s.records && s.records[r.processingId] == r && Eligible(s, r.processingId, staleBefore)
    requires forall pid :: pid in s.records && Eligible(s, pid, staleBefore) ==> s.records[pid] in sorted
    ensures IsWorkList(s, limit, staleBefore, if |sorted| <= limit then sorted else sorted[..limit])
  {
    hide Eligible, Before;
    var out := if |sorted| <= limit then sorted else sorted[..limit];
    assert forall i :: 0 <= i < |out| ==> sorted[i] == out[i] && sorted[i] in out;
    forall pid | pid in s.records && Eligible(s, pid, staleBefore) && s.records[pid] !in out
      ensures |out| == limit && forall i :: 0 <= i < |out| ==> Before(out[i], s.records[pid])
    {
      var k :| 0 <= k < |sorted| && sorted[k] == s.records[pid];
    }
  }

  /** The work list is unique, so any two implementations of it agree. */
  lemma {:induction false} WorkListUnique(s: Store, limit: nat, staleBefore: int, a: seq<Record>, b: seq<Record>)
    requires IsWorkList(s, limit, staleBefore, a) && IsWorkList(s, limit, staleBefore, b)
    ensures a == b
  {
    hide Eligible;
    WorkListPrefix(s, limit, staleBefore, a, b, |a|);
    WorkListPrefix(s, limit, staleBefore, b, a, |b|);
  }

  lemma {:induction false} WorkListPrefix(s: Store, limit: nat, staleBefore: int, a: seq<Record>, b: seq<Record>, n: nat)
    requires IsWorkList(s, limit, staleBefore, a) && IsWorkList(s, limit, staleBefore, b) && n <= |a|
    ensures n <= |b| && a[..n] == b[..n]
  {
    hide Eligible;
    if n > 0 {
      WorkListPrefix(s, limit, staleBefore, a, b, n - 1);
      var r := a[n - 1];
      assert a[..n] == a[..n - 1] + [r];
      NotEarlier(a, b, n);
      Reaches(s, limit, staleBefore, a, b, n);
      LaterOrSame(s, limit, staleBefore, b, n, r);
      LaterOrSame(s, limit, staleBefore, a, n, b[n - 1]);
      assert b[..n] == b[..n - 1] + [b[n - 1]];
    }
  }

  /** A work list that agrees with another so far is as long as the other. */
  lemma Reaches(s: Store, limit: nat, staleBefore: int, a: seq<Record>, b: seq<Record>, n: nat)
    requires IsWorkList(s, limit, staleBefore, a) && IsWorkList(s, limit, staleBefore, b)
    requires 0 < n <= |a| && n - 1 <= |b| && a[..n - 1] == b[..n - 1]
    ensures n <= |b|
  {
    hide Eligible;
    NotEarlier(a, b, n);
    var r := a[n - 1];
    assert r in b ==> |b| >= n;
  }

  lemma NotEarlier(a: seq<Record>, b: seq<Record>, n: nat)
    requires SortedRecords(a) && SortedRecords(b) && 0 < n <= |a| && n - 1 <= |b| && a[..n - 1] == b[..n - 1]
    ensures a[n - 1] !in b[..n - 1]
    ensures n <= |b| ==> b[n - 1] !in a[..n - 1]
  {
    forall k | 0 <= k < n - 1 ensures b[k] != a[n - 1] && (n <= |b| ==> a[k] != b[n - 1]) {
      assert a[..n - 1][k] == b[..n - 1][k];
      assert Before(a[k], a[n - 1]);
    }
  }

  /** An eligible record that is not among the first of a work list comes next or later. */
  lemma LaterOrSame(s: Store, limit: nat, staleBefore: int, b: seq<Record>, n: nat, r: Record)
    requires IsWorkList(s, limit, staleBefore, b) && 0 < n <= |b| && r !in b[..n - 1]
    requires r.processingId in s.records && s.records[r.processingId] == r && Eligible(s, r.processingId, staleBefore)
    ensures b[n - 1] == r || Before(b[n - 1], r)
  {
    hide Eligible;
    if r in b {
      var k :| 0 <= k < |b| && b[k] == r;
      assert k >= n - 1;
    }
  }
}
