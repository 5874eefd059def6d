/** What passes add up to: an eligible record is reached within a number of passes set by how
    much unsettled work stands before it, a pass that runs alone leaves nothing it could
    advance, and once polls stop being answered "still running" everything settles. */
module Fairness {
  import opened Domain
  import opened Lifecycle
  import opened Repository
  import opened RepositoryInvariant
  import P = Protocol
  import opened ProtocolInvariant
  import opened Runs

  /** One uninterrupted pass: what `PersistentAlertProcessor.ReconcileOnce` ensures when the
      repository answers and the budget lasts. Others may act meanwhile. */
  datatype Pass = Pass(before: P.World, after: P.World, limit: nat, staleBefore: int, found: seq<Record>)

  ghost predicate FullPass(p: Pass) {
    && p.limit >= 1
    && IsWorkList(p.before.store, p.limit, p.staleBefore, p.found)
    && Since(p.before, p.after, true)
    && forall k :: 0 <= k < |p.found| ==>
         p.found[k].processingId in p.after.store.records
         && p.after.store.records[p.found[k].processingId].updatedAt >= p.before.clock
  }

  /** Passes one after another, with anything in between; the cutoff does not move back. */
  ghost predicate PassesFrom(w: P.World, passes: seq<Pass>) {
    && (forall i :: 0 <= i < |passes| ==> FullPass(passes[i]))
    && (|passes| > 0 ==> Since(w, passes[0].before, true))
    && (forall i :: 0 <= i < |passes| - 1 ==>
          Since(passes[i].after, passes[i + 1].before, true) && passes[i].staleBefore <= passes[i + 1].staleBefore)
  }

  /** The unsettled records that stand before `r` in the order of the work list. */
  function Ahead(s: Store, r: Record): set<nat> {
    set pid | pid in s.records && !Settled(s.records[pid].state) && Before(s.records[pid], r)
  }

  /** Nothing enters the set of records ahead of one whose stamp is past: whatever changes or
      arrives is stamped later. */
  lemma AheadShrinks(w: P.World, x: P.World, r: Record)
    requires Since(w, x, true) && r.updatedAt < w.clock
    ensures Ahead(x.store, r) <= Ahead(w.store, r)
  {
    hide Evolves;
    forall pid | pid in Ahead(x.store, r) ensures pid in Ahead(w.store, r) {
    }
  }

  lemma Distinct(s: Store, limit: nat, staleBefore: int, found: seq<Record>)
    requires IsWorkList(s, limit, staleBefore, found)
    ensures forall j, k :: 0 <= j < k < |found| ==> found[j].processingId != found[k].processingId
  {
    hide Eligible;
    forall j, k | 0 <= j < k < |found| ensures found[j].processingId != found[k].processingId {
      assert Before(found[j], found[k]);
    }
  }

  function Ids(found: seq<Record>): set<nat> {
    set k | 0 <= k < |found| :: found[k].processingId
  }

  lemma {:induction false} IdsCount(found: seq<Record>)
    requires forall j, k :: 0 <= j < k < |found| ==> found[j].processingId != found[k].processingId
    ensures |Ids(found)| == |found|
  {
    if found != [] {
      var n := |found| - 1;
      IdsCount(found[..n]);
      assert Ids(found) == Ids(found[..n]) + {found[n].processingId};
    }
  }

  lemma EligibleUnsettled(s: Store, pid: nat, staleBefore: int)
    requires pid in s.records && Eligible(s, pid, staleBefore)
    ensures !Settled(s.records[pid].state)
  {
  }

  /** A full pass that does not reach an eligible record takes `limit` others out of its way. */
  lemma PassAdvances(p: Pass, r: Record)
    requires FullPass(p) && r.updatedAt < p.before.clock
    requires r.processingId in p.before.store.records && p.before.store.records[r.processingId] == r
    requires Eligible(p.before.store, r.processingId, p.staleBefore) && r !in p.found
    ensures |Ahead(p.after.store, r)| + p.limit <= |Ahead(p.before.store, r)|
  {
    hide Eligible, Evolves;
    var ids := Ids(p.found);
    Distinct(p.before.store, p.limit, p.staleBefore, p.found);
    IdsCount(p.found);
    AheadShrinks(p.before, p.after, r);
    forall pid | pid in ids ensures pid in Ahead(p.before.store, r) && pid !in Ahead(p.after.store, r) {
      var k :| 0 <= k < |p.found| && p.found[k].processingId == pid;
      EligibleUnsettled(p.before.store, pid, p.staleBefore);
    }
    assert Ahead(p.after.store, r) + ids <= Ahead(p.before.store, r);
    SetSizes(Ahead(p.after.store, r), ids, Ahead(p.before.store, r));
  }

  lemma SetSizes<T>(a: set<T>, b: set<T>, c: set<T>)
    requires a !! b && a + b <= c
    ensures |a| + |b| <= |c|
  {
    assert |a + b| == |a| + |b|;
    Subset(a + b, c);
  }

  lemma {:induction false} Subset<T>(a: set<T>, b: set<T>)
    requires a <= b
    ensures |a| <= |b|
  {
    if a != {} {
      var x :| x in a;
      Subset(a - {x}, b - {x});
    }
  }

  /** `r` was taken up by one of the passes, or someone else moved it first. */
  ghost predicate Reached(passes: seq<Pass>, r: Record) {
    exists i :: 0 <= i < |passes| && (r in passes[i].found || Get(passes[i].before.store, r.processingId) != Some(r))
  }

  lemma StillEligible(s: Store, t: Store, pid: nat, cutoff: int, later: int)
    requires Evolves(s, t) && pid in s.records && pid in t.records && t.records[pid] == s.records[pid]
    requires Eligible(s, pid, cutoff) && cutoff <= later
    ensures Eligible(t, pid, later)
  {
    hide RecordEvolves;
  }

  /** A record with an old stamp that is there later was there all along. */
  lemma WasThere(w: P.World, x: P.World, r: Record)
    requires Since(w, x, true) && r.updatedAt < w.clock
    requires r.processingId in x.store.records && x.store.records[r.processingId] == r
    ensures r.processingId in w.store.records && w.store.records[r.processingId] == r
  {
    hide Evolves;
  }

  /** One pass that misses `r`. */
  lemma MissedOnce(w: P.World, p: Pass, r: Record)
    requires FullPass(p) && Since(w, p.before, true) && r.updatedAt < w.clock
    requires r.processingId in w.store.records && w.store.records[r.processingId] == r
    requires Eligible(w.store, r.processingId, p.staleBefore)
    requires r !in p.found && Get(p.before.store, r.processingId) == Some(r)
    ensures |Ahead(p.after.store, r)| + p.limit <= |Ahead(w.store, r)|
    ensures r.updatedAt < p.after.clock && Eligible(p.before.store, r.processingId, p.staleBefore)
  {
    hide Eligible, IsWorkList, Evolves, Ahead;
    SinceOrder(w, p.before);
    StillEligible(w.store, p.before.store, r.processingId, p.staleBefore, p.staleBefore);
    PassAdvances(p, r);
    AheadShrinks(w, p.before, r);
    Subset(Ahead(p.before.store, r), Ahead(w.store, r));
  }

  lemma SinceOrder(w: P.World, x: P.World)
    requires Since(w, x, true)
    ensures Evolves(w.store, x.store) && w.clock <= x.clock
  {
  }

  /** Induction over the passes: while `r` is not reached, each takes `limit` records out of
      its way. */
  lemma {:induction false} AheadAfter(w: P.World, passes: seq<Pass>, r: Record, limit: nat)
    requires PassesFrom(w, passes) && |passes| > 0 && r.updatedAt < w.clock
    requires r.processingId in w.store.records && w.store.records[r.processingId] == r
    requires Eligible(w.store, r.processingId, passes[0].staleBefore)
    requires (forall i :: 0 <= i < |passes| ==> passes[i].limit == limit) && !Reached(passes, r)
    ensures |passes| * limit <= |Ahead(w.store, r)|
    decreases |passes|
  {
    hide Eligible, Evolves, FullPass, IsWorkList, Since, Ahead;
    var p := passes[0];
    assert r !in p.found && Get(p.before.store, r.processingId) == Some(r);
    MissedOnce(w, p, r);
    if |passes| > 1 {
      var rest := passes[1..];
      RestOf(w, passes, r);
      WasThere(p.after, rest[0].before, r);
      PassSince(p);
      StillEligible(p.before.store, p.after.store, r.processingId, p.staleBefore, rest[0].staleBefore);
      AheadAfter(p.after, rest, r, limit);
      assert |passes| * limit == |rest| * limit + limit;
    }
  }

  lemma PassSince(p: Pass)
    requires FullPass(p)
    ensures Evolves(p.before.store, p.after.store)
  {
    hide IsWorkList, Evolves;
  }

  lemma RestOf(w: P.World, passes: seq<Pass>, r: Record)
    requires PassesFrom(w, passes) && |passes| > 1 && !Reached(passes, r)
    ensures var rest := passes[1..];
            && PassesFrom(passes[0].after, rest) && !Reached(rest, r)
            && passes[0].staleBefore <= rest[0].staleBefore && Since(passes[0].after, rest[0].before, true)
            && Get(rest[0].before.store, r.processingId) == Some(r)
  {
    hide FullPass, Since;
    var rest := passes[1..];
    assert rest[0] == passes[0 + 1];
    forall i | 0 <= i < |rest| - 1
      ensures Since(rest[i].after, rest[i + 1].before, true) && rest[i].staleBefore <= rest[i + 1].staleBefore
    {
      assert rest[i] == passes[i + 1] && rest[i + 1] == passes[(i + 1) + 1];
    }
    forall i | 0 <= i < |rest| ensures r !in rest[i].found && Get(rest[i].before.store, r.processingId) == Some(r) {
      assert rest[i] == passes[i + 1];
    }
  }

  /** No starvation: however much new work arrives, an eligible record whose stamp is past and
      that has `m` unsettled records before it is taken up within `m / limit + 1` passes,
      unless someone else moves it first. */
  lemma NoStarvation(w: P.World, passes: seq<Pass>, r: Record, limit: nat)
    requires limit >= 1 && PassesFrom(w, passes) && (forall i :: 0 <= i < |passes| ==> passes[i].limit == limit)
    requires r.processingId in w.store.records && w.store.records[r.processingId] == r && r.updatedAt < w.clock
    requires |passes| == |Ahead(w.store, r)| / limit + 1
    requires Eligible(w.store, r.processingId, passes[0].staleBefore)
    ensures Reached(passes, r)
  {
    hide Eligible, PassesFrom, Reached, Ahead;
    if !Reached(passes, r) {
      AheadAfter(w, passes, r, limit);
      Quotient(|passes|, |Ahead(w.store, r)|, limit);
    }
  }

  lemma Quotient(n: nat, m: nat, limit: nat)
    requires limit >= 1 && n == m / limit + 1
    ensures n * limit > m
  {
    assert m == (m / limit) * limit + m % limit;
    assert n * limit == (m / limit) * limit + limit;
  }

  // ----- A pass that runs alone

  function EligibleSet(s: Store, staleBefore: int): set<nat> {
    set pid | pid in s.records && Eligible(s, pid, staleBefore)
  }

  /** With room for every eligible record, the work list holds them all. */
  lemma AllFound(s: Store, limit: nat, staleBefore: int, found: seq<Record>, pid: nat)
    requires IsWorkList(s, limit, staleBefore, found) && |EligibleSet(s, staleBefore)| <= limit
    requires pid in s.records && Eligible(s, pid, staleBefore)
    ensures s.records[pid] in found
  {
    hide Eligible;
    if s.records[pid] !in found {
      Distinct(s, limit, staleBefore, found);
      IdsCount(found);
      forall q | q in Ids(found) + {pid} ensures q in EligibleSet(s, staleBefore) {
      }
      assert pid !in Ids(found);
      SetSizes(Ids(found), {pid}, EligibleSet(s, staleBefore));
      assert false;
    }
  }

  /** Quiescent progress: after a pass that had room for every eligible record and left each
      of them submitted or settled - which `ReconcileOnce` ensures for a worker that is alone
      - no record that existed when it began is still accepted or planned, and none is still
      submitting from before the cutoff. */
  lemma Quiescent(s: Store, t: Store, limit: nat, staleBefore: int, found: seq<Record>, pid: nat)
    requires Lockstep(s) && Lockstep(t) && Evolves(s, t)
    requires IsWorkList(s, limit, staleBefore, found) && |EligibleSet(s, staleBefore)| <= limit
    requires forall k :: 0 <= k < |found| ==> LevelIn(t, found[k].processingId) >= 3
    requires pid in s.records
    ensures pid in t.records && t.records[pid].state != Accepted && t.records[pid].state != Planned
    ensures t.records[pid].state == Submitting ==> !Eligible(t, pid, staleBefore)
  {
    hide Lockstep, IsWorkList, EligibleSet;
    if Eligible(s, pid, staleBefore) {
      AllFound(s, limit, staleBefore, found, pid);
      var k :| 0 <= k < |found| && found[k] == s.records[pid];
      Pairing(s, pid);
    } else {
      LevelsKept(s, t);
      NotStale(s, t, pid, staleBefore);
    }
  }

  /** A submission that was not stale is not made stale by what happens later. */
  lemma NotStale(s: Store, t: Store, pid: nat, staleBefore: int)
    requires Lockstep(s) && Evolves(s, t) && pid in s.records && pid in t.records
    requires !Eligible(s, pid, staleBefore)
    ensures Eligible(t, pid, staleBefore) ==> t.records[pid].state == Submitted
  {
    hide IndexesOk, AttemptTidy, Matches, RecordConstructs;
    assert RecordEvolves(s.records[pid], t.records[pid]);
    assert RecordOk(s, pid);
    if s.records[pid].state == Submitting {
      var aid := s.attemptOf[pid];
      assert AttemptOk(s, aid);
      assert AttemptEvolves(s.attempts[aid], t.attempts[aid]);
    }
  }

  // ----- Settling

  /** One solitary pass: what `ReconcileOnce` ensures when the worker is alone, the repository
      answers and the budget lasts. `polls` counts the polls answered so far with an operation
      still running. */
  datatype Solitary = Solitary(before: Store, after: Store, pollsBefore: nat, pollsAfter: nat, limit: nat, staleBefore: int, found: seq<Record>)

  ghost predicate SolitaryPass(p: Solitary) {
    && Lockstep(p.before) && Lockstep(p.after) && Evolves(p.before, p.after) && p.pollsBefore <= p.pollsAfter
    && IsWorkList(p.before, p.limit, p.staleBefore, p.found) && |EligibleSet(p.before, p.staleBefore)| <= p.limit
    && forall k :: 0 <= k < |p.found| ==>
         LevelIn(p.after, p.found[k].processingId) >= 3
         && (LevelIn(p.after, p.found[k].processingId) >= 4 || p.pollsAfter > p.pollsBefore)
  }

  /** One pass submits a record it could take up, and settles it unless one more of its polls
      found the operation still running. */
  lemma PassSettles(p: Solitary, pid: nat)
    requires SolitaryPass(p) && pid in p.before.records && Eligible(p.before, pid, p.staleBefore)
    ensures pid in p.after.records && LevelIn(p.after, pid) >= 3
    ensures LevelIn(p.after, pid) >= 4 || p.pollsAfter > p.pollsBefore
  {
    hide Lockstep, IsWorkList, EligibleSet, Eligible;
    Pairing(p.before, pid);
    AllFound(p.before, p.limit, p.staleBefore, p.found, pid);
    var k :| 0 <= k < |p.found| && p.found[k] == p.before.records[pid];
  }

  /** Passes one after another; others may act between two of them. */
  ghost predicate Chained(passes: seq<Solitary>) {
    && (forall i :: 0 <= i < |passes| ==> SolitaryPass(passes[i]))
    && (forall i :: 0 <= i < |passes| - 1 ==>
          Evolves(passes[i].after, passes[i + 1].before) && passes[i].pollsAfter <= passes[i + 1].pollsBefore)
  }

  lemma EachSolitary(passes: seq<Solitary>)
    requires Chained(passes)
    ensures forall i :: 0 <= i < |passes| ==> SolitaryPass(passes[i])
  {
    hide SolitaryPass, Evolves;
  }

  lemma RecordStays(s: Store, t: Store, pid: nat)
    requires Evolves(s, t) && pid in s.records
    ensures pid in t.records
  {
    hide RecordEvolves, AttemptEvolves;
  }

  lemma ChainedParts(passes: seq<Solitary>, i: nat)
    requires Chained(passes) && i <= |passes|
    ensures Chained(passes[..i]) && Chained(passes[i..])
  {
    hide SolitaryPass, Evolves;
    var first, rest := passes[..i], passes[i..];
    forall k | 0 <= k < |first| - 1 ensures Evolves(first[k].after, first[k + 1].before) && first[k].pollsAfter <= first[k + 1].pollsBefore {
      assert first[k] == passes[k] && first[k + 1] == passes[k + 1];
    }
    forall k | 0 <= k < |rest| - 1 ensures Evolves(rest[k].after, rest[k + 1].before) && rest[k].pollsAfter <= rest[k + 1].pollsBefore {
      assert rest[k] == passes[i + k] && rest[k + 1] == passes[i + k + 1];
    }
  }

  /** While a record is not settled, every pass has used up a poll. */
  lemma {:induction false} Waits(passes: seq<Solitary>, pid: nat)
    requires Chained(passes) && |passes| > 0
    requires pid in passes[0].before.records && Eligible(passes[0].before, pid, passes[0].staleBefore)
    ensures var last := passes[|passes| - 1];
            && LevelIn(last.after, pid) >= 3
            && (LevelIn(last.after, pid) >= 4 || |passes| <= last.pollsAfter - passes[0].pollsBefore)
    decreases |passes|
  {
    hide SolitaryPass, Eligible;
    var n := |passes| - 1;
    if n == 0 {
      PassSettles(passes[0], pid);
    } else {
      var first := passes[..n];
      ChainedParts(passes, n);
      Waits(first, pid);
      assert first[n - 1] == passes[n - 1] && Evolves(passes[n - 1].after, passes[(n - 1) + 1].before);
      SolitaryLevels(passes[n - 1]);
      SolitaryLevels(passes[n]);
      LevelsKept(passes[n - 1].after, passes[n].before);
      if LevelIn(passes[n].before, pid) < 4 {
        SubmittedEligible(passes[n].before, pid, passes[n].staleBefore);
        PassSettles(passes[n], pid);
      }
    }
  }

  lemma SubmittedEligible(s: Store, pid: nat, staleBefore: int)
    requires LevelIn(s, pid) == 3
    ensures pid in s.records && Eligible(s, pid, staleBefore)
  {
  }

  lemma SolitaryLevels(p: Solitary)
    requires SolitaryPass(p)
    ensures Lockstep(p.before) && Lockstep(p.after) && Evolves(p.before, p.after)
    ensures forall pid :: LevelIn(p.before, pid) <= LevelIn(p.after, pid)
  {
    hide Lockstep, IsWorkList, EligibleSet, Evolves;
    LevelsKept(p.before, p.after);
  }

  /** If from pass `i` on polls find operations still running fewer times than there are
      passes, then every record that pass could take up - accepted, planned, submitted, or
      claimed before its cutoff - is settled in the end. */
  lemma SettlesEventually(passes: seq<Solitary>, i: nat, pid: nat)
    requires Chained(passes) && i < |passes|
    requires pid in passes[i].before.records && Eligible(passes[i].before, pid, passes[i].staleBefore)
    requires passes[|passes| - 1].pollsAfter - passes[i].pollsBefore < |passes| - i
    ensures var t := passes[|passes| - 1].after; pid in t.records && Settled(t.records[pid].state)
  {
    hide Chained, Eligible;
    ChainedParts(passes, i);
    Waits(passes[i..], pid);
  }

  /** A claim on the record, if it is submitting, was made at the cutoff or before. */
  predicate ClaimPast(s: Store, pid: nat, cutoff: int)
    requires pid in s.records
  {
    s.records[pid].state == Submitting ==>
      AttemptOf(s, pid).Some? && AttemptOf(s, pid).value.startedAt.Some? && AttemptOf(s, pid).value.startedAt.value <= cutoff
  }

  /** A record that was there before pass 0 is, when pass `i` begins, settled or within its
      reach, if pass `i` looks back far enough for the claim the record had at first. */
  lemma InReach(passes: seq<Solitary>, i: nat, pid: nat)
    requires Chained(passes) && i < |passes| && pid in passes[0].before.records
    requires ClaimPast(passes[0].before, pid, passes[i].staleBefore)
    ensures var s := passes[i].before;
            pid in s.records && (Settled(s.records[pid].state) || Eligible(s, pid, passes[i].staleBefore))
  {
    hide SolitaryPass, Eligible, Chained, Lockstep, Evolves, ClaimPast;
    var s, t := passes[0].before, passes[i].before;
    EachSolitary(passes);
    SolitaryLevels(passes[0]);
    RecordStays(s, passes[0].after, pid);
    if i == 0 {
      EvolvesReflexive(s, 0);
      ClaimReached(s, s, pid, passes[0].staleBefore);
    } else {
      ChainEvolves(passes, i);
      SolitaryLevels(passes[i]);
      EvolvesTransitive(s, passes[0].after, t);
      RecordStays(s, t, pid);
      if s.records[pid].state in {Accepted, Planned, Submitted} {
        OpenEligible(s, pid, passes[0].staleBefore);
        PassSettles(passes[0], pid);
        LevelsKept(passes[0].after, t);
        LevelSettledOrEligible(t, pid, passes[i].staleBefore);
      } else {
        ClaimReached(s, t, pid, passes[i].staleBefore);
      }
    }
  }

  lemma OpenEligible(s: Store, pid: nat, cutoff: int)
    requires pid in s.records && s.records[pid].state in {Accepted, Planned, Submitted}
    ensures Eligible(s, pid, cutoff)
  {
  }

  lemma LevelSettledOrEligible(s: Store, pid: nat, cutoff: int)
    requires LevelIn(s, pid) >= 3
    ensures pid in s.records && (Settled(s.records[pid].state) || Eligible(s, pid, cutoff))
  {
  }

  /** A record that is submitting or settled, or the same store. */
  lemma ClaimReached(s: Store, t: Store, pid: nat, cutoff: int)
    requires Lockstep(s) && Lockstep(t) && Evolves(s, t) && pid in s.records && ClaimPast(s, pid, cutoff)
    requires s == t || s.records[pid].state !in {Accepted, Planned, Submitted}
    ensures pid in t.records && (Settled(t.records[pid].state) || Eligible(t, pid, cutoff))
  {
    hide IndexesOk, RecordConstructs, AttemptConstructs, Matches, Tidy, AttemptTidy;
    assert RecordEvolves(s.records[pid], t.records[pid]);
    if s.records[pid].state == Submitting {
      assert AttemptEvolves(s.attempts[s.attemptOf[pid]], t.attempts[s.attemptOf[pid]]);
    }
  }

  lemma {:induction false} ChainEvolves(passes: seq<Solitary>, i: nat)
    requires Chained(passes) && 0 < i < |passes|
    ensures Evolves(passes[0].after, passes[i].before)
    decreases i
  {
    hide SolitaryPass, Evolves;
    if i == 1 {
      assert Evolves(passes[0].after, passes[0 + 1].before);
    } else {
      ChainEvolves(passes, i - 1);
      SolitaryLevels(passes[i - 1]);
      assert Evolves(passes[i - 1].after, passes[(i - 1) + 1].before);
      EvolvesTransitive(passes[i - 1].before, passes[i - 1].after, passes[i].before);
      EvolvesTransitive(passes[0].after, passes[i - 1].before, passes[i].before);
    }
  }

  /** Every record there was at first is settled in the end, if some pass looks back past the
      claim it may have had and polls find operations still running fewer times than there
      are passes from that one on. */
  lemma EverythingSettles(passes: seq<Solitary>, i: nat, pid: nat)
    requires Chained(passes) && i < |passes| && pid in passes[0].before.records
    requires ClaimPast(passes[0].before, pid, passes[i].staleBefore)
    requires passes[|passes| - 1].pollsAfter - passes[i].pollsBefore < |passes| - i
    ensures var t := passes[|passes| - 1].after; pid in t.records && Settled(t.records[pid].state)
  {
    hide Eligible, ClaimPast, SolitaryPass, Chained, Lockstep, Evolves;
    InReach(passes, i, pid);
    EachSolitary(passes);
    var n := |passes| - 1;
    var s := passes[i].before;
    if Eligible(s, pid, passes[i].staleBefore) {
      SettlesEventually(passes, i, pid);
    } else {
      SolitaryLevels(passes[i]);
      SolitaryLevels(passes[n]);
      if i < n {
        ChainedParts(passes, i);
        ChainEvolves(passes[i..], n - i);
        LevelsKept(passes[i].after, passes[n].before);
      }
      assert LevelIn(s, pid) == 4;
    }
  }
}
