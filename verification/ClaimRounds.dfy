/** Claims at one instant: how successive batches cover the due rows. */
module ClaimRounds {
  import opened Common
  import opened Outbox

  lemma FirstUnique(rows: Table, ids: set<MessageId>, a: MessageId, b: MessageId)
    requires ids <= rows.Keys && a in ids && b in ids && IsFirst(rows, ids, a) && IsFirst(rows, ids, b)
    ensures a == b
  {
    assert Before(rows, a, b) && Before(rows, b, a);
  }

  /** The list holds each id once, by creation time and then by id. */
  lemma {:induction false} SortedIdsSound(rows: Table, ids: set<MessageId>)
    requires ids <= rows.Keys
    ensures var r := SortedIds(rows, ids);
      && (forall id :: id in r <==> id in ids)
      && NoDuplicates(r)
      && (forall i, j :: 0 <= i < j < |r| ==> Before(rows, r[i], r[j]))
    decreases |ids|
  {
    if ids != {} {
      var r := SortedIds(rows, ids);
      assert r[0] in ids && IsFirst(rows, ids, r[0]);
      SortedIdsSound(rows, ids - {r[0]});
      var rest := SortedIds(rows, ids - {r[0]});
      assert r == [r[0]] + rest;
      forall i | 0 <= i < |rest| ensures rest[i] in ids && rest[i] != r[0] {
        assert rest[i] in rest;
      }
    }
  }

  lemma SortedIdsUnfold(rows: Table, ids: set<MessageId>)
    requires ids <= rows.Keys && ids != {}
    ensures var r := SortedIds(rows, ids);
      r[0] in ids && IsFirst(rows, ids, r[0]) && r == [r[0]] + SortedIds(rows, ids - {r[0]})
  {
  }

  lemma TakeCons(x: MessageId, rest: seq<MessageId>, k: nat)
    requires 0 < k <= |rest| + 1
    ensures ([x] + rest)[k..] == rest[k - 1..]
    ensures Elements(([x] + rest)[..k]) == {x} + Elements(rest[..k - 1])
  {
    assert ([x] + rest)[..k] == [x] + rest[..k - 1];
  }

  lemma {:induction false} SortedIdsDrop(rows: Table, ids: set<MessageId>, k: nat)
    requires ids <= rows.Keys && k <= |ids|
    ensures SortedIds(rows, ids)[k..] == SortedIds(rows, ids - Elements(SortedIds(rows, ids)[..k]))
    decreases k
  {
    var r := SortedIds(rows, ids);
    if k == 0 {
      assert ids - Elements(r[..0]) == ids;
    } else {
      SortedIdsUnfold(rows, ids);
      var rest := ids - {r[0]};
      SortedIdsDrop(rows, rest, k - 1);
      var tail := SortedIds(rows, rest);
      TakeCons(r[0], tail, k);
      assert ids - ({r[0]} + Elements(tail[..k - 1])) == rest - Elements(tail[..k - 1]);
    }
  }

  /** Only creation times matter for the order. */
  lemma {:induction false} SortedIdsFrame(rows: Table, rows': Table, ids: set<MessageId>)
    requires ids <= rows.Keys && ids <= rows'.Keys
    requires forall id :: id in ids ==> rows[id].createdAt == rows'[id].createdAt
    ensures SortedIds(rows, ids) == SortedIds(rows', ids)
    decreases |ids|
  {
    if ids != {} {
      var m, m' := SortedIds(rows, ids)[0], SortedIds(rows', ids)[0];
      assert m in ids && IsFirst(rows, ids, m) && m' in ids && IsFirst(rows', ids, m');
      assert IsFirst(rows, ids, m');
      FirstUnique(rows, ids, m, m');
      SortedIdsFrame(rows, rows', ids - {m});
    }
  }

  /** The due rows as a claim with nothing locked sees them. */
  ghost function DueList(rows: Table, w: Worker, now: int): seq<MessageId> {
    SortedIds(rows, DueIds(rows, w.kind, now))
  }

  /** At most `k` elements from the front: SQL's LIMIT. */
  ghost function Take(s: seq<MessageId>, k: nat): seq<MessageId> {
    s[..Min(k, |s|)]
  }

  lemma ClaimIsPrefix(rows: Table, w: Worker, now: int)
    ensures ClaimIds(rows, w, now, {}) == Take(DueList(rows, w, now), w.batchSize)
  {
    assert DueIds(rows, w.kind, now) - {} == DueIds(rows, w.kind, now);
  }

  /** A claim only takes due, unlocked rows, each once, and no more than the batch size. */
  lemma {:induction false} ClaimIdsSound(rows: Table, w: Worker, now: int, locked: set<MessageId>)
    ensures var ids := ClaimIds(rows, w, now, locked);
      && NoDuplicates(ids) && |ids| <= w.batchSize
      && forall id :: id in ids ==> id in rows && id !in locked && Due(rows[id], w.kind, now)
  {
    var due := DueIds(rows, w.kind, now) - locked;
    SortedIdsSound(rows, due);
    forall id | id in ClaimIds(rows, w, now, locked) ensures id in due {
      assert id in SortedIds(rows, due);
    }
  }

  ghost function AfterClaim(rows: Table, w: Worker, now: int): Table {
    ClaimRows(rows, ClaimIds(rows, w, now, {}), LeaseEnd(w, now))
  }

  /** After a claim under a positive lease, the due list is what the claim left of it. */
  lemma {:induction false} ClaimLeavesTheRest(rows: Table, w: Worker, now: int)
    requires w.leaseSeconds > 0
    ensures var s := DueList(rows, w, now);
      DueList(AfterClaim(rows, w, now), w, now) == s[Min(w.batchSize, |s|)..]
  {
    var s, rows' := DueList(rows, w, now), AfterClaim(rows, w, now);
    var ids := ClaimIds(rows, w, now, {});
    var k := Min(w.batchSize, |s|);
    ClaimIsPrefix(rows, w, now);
    ClaimIdsSound(rows, w, now, {});
    var due := DueIds(rows, w.kind, now);
    assert DueIds(rows', w.kind, now) == due - Elements(ids);
    SortedIdsDrop(rows, due, k);
    SortedIdsFrame(rows, rows', due - Elements(ids));
  }

  /** The batches of `n` claims in a row at the same instant. */
  ghost function Rounds(rows: Table, w: Worker, now: int, n: nat): seq<seq<MessageId>> {
    if n == 0 then []
    else [ClaimIds(rows, w, now, {})] + Rounds(AfterClaim(rows, w, now), w, now, n - 1)
  }

  ghost function Concat(batches: seq<seq<MessageId>>): seq<MessageId> {
    if batches == [] then [] else batches[0] + Concat(batches[1..])
  }

  lemma TakeTwice(s: seq<MessageId>, b: nat, m: nat)
    ensures Take(s, b) + Take(s[Min(b, |s|)..], m) == Take(s, b + m)
  {
  }

  lemma RoundsUnfold(rows: Table, w: Worker, now: int, n: nat)
    requires n > 0
    ensures Concat(Rounds(rows, w, now, n))
      == ClaimIds(rows, w, now, {}) + Concat(Rounds(AfterClaim(rows, w, now), w, now, n - 1))
  {
    assert Rounds(rows, w, now, n)[1..] == Rounds(AfterClaim(rows, w, now), w, now, n - 1);
  }

  lemma {:induction false} RoundsArePrefix(rows: Table, w: Worker, now: int, n: nat)
    requires w.leaseSeconds > 0
    ensures 0 <= n * w.batchSize
    ensures Concat(Rounds(rows, w, now, n)) == Take(DueList(rows, w, now), n * w.batchSize)
    decreases n
  {
    if n > 0 {
      RoundsUnfold(rows, w, now, n);
      ClaimIsPrefix(rows, w, now);
      ClaimLeavesTheRest(rows, w, now);
      RoundsArePrefix(AfterClaim(rows, w, now), w, now, n - 1);
      TakeTwice(DueList(rows, w, now), w.batchSize, (n - 1) * w.batchSize);
      assert n * w.batchSize == w.batchSize + (n - 1) * w.batchSize;
    }
  }

  /** Successive claims at one instant take disjoint batches, in order of age. */
  lemma {:induction false} BatchesDisjoint(rows: Table, w: Worker, now: int, n: nat)
    requires w.leaseSeconds > 0
    ensures var all := Concat(Rounds(rows, w, now, n));
      && NoDuplicates(all)
      && (forall id :: id in all ==> id in rows && Due(rows[id], w.kind, now))
      && (forall i, j :: 0 <= i < j < |all| ==> all[i] in rows && all[j] in rows && Before(rows, all[i], all[j]))
  {
    var s := DueList(rows, w, now);
    RoundsArePrefix(rows, w, now, n);
    SortedIdsSound(rows, DueIds(rows, w.kind, now));
    forall i | 0 <= i < |s| ensures s[i] in rows && Due(rows[s[i]], w.kind, now) {
      assert s[i] in s;
    }
  }

  function CeilDiv(d: nat, b: nat): nat
    requires b > 0
  {
    (d + b - 1) / b
  }

  /** ceil(D / batch) claims, and not fewer, cover the D due rows. */
  lemma {:induction false} DueRowsCovered(rows: Table, w: Worker, now: int, n: nat)
    requires w.leaseSeconds > 0 && w.batchSize > 0
    ensures var due := DueIds(rows, w.kind, now);
      n >= CeilDiv(|due|, w.batchSize) <==> Elements(Concat(Rounds(rows, w, now, n))) == due
  {
    var due, s := DueIds(rows, w.kind, now), DueList(rows, w, now);
    RoundsArePrefix(rows, w, now, n);
    SortedIdsSound(rows, due);
    CeilDivBound(|due|, w.batchSize, n);
    var k := Min(n * w.batchSize, |s|);
    if k == |s| {
      assert s[..k] == s;
      assert Elements(s) == due;
    } else {
      assert s[k] in s;
      assert s[k] in due && s[k] !in s[..k];
    }
  }

  lemma CeilDivBound(d: nat, b: nat, n: nat)
    requires b > 0
    ensures n >= CeilDiv(d, b) <==> n * b >= d
  {
    var q := CeilDiv(d, b);
    assert q * b >= d && (q > 0 ==> (q - 1) * b < d);
    if n >= q {
      assert n * b >= q * b;
    } else {
      assert n * b <= (q - 1) * b;
    }
  }

  /** Without a positive lease the next claim takes the same rows again. */
  lemma LeaselessClaimRepeats(rows: Table, w: Worker, now: int)
    requires w.leaseSeconds <= 0
    ensures ClaimIds(AfterClaim(rows, w, now), w, now, {}) == ClaimIds(rows, w, now, {})
  {
    var rows' := AfterClaim(rows, w, now);
    ClaimIdsSound(rows, w, now, {});
    assert DueIds(rows', w.kind, now) == DueIds(rows, w.kind, now);
    SortedIdsFrame(rows, rows', DueIds(rows, w.kind, now));
    ClaimIsPrefix(rows, w, now);
    ClaimIsPrefix(rows', w, now);
  }

  /** Two workers that claim at the same instant stay apart exactly when the lease is positive. */
  lemma {:induction false} ClaimsDisjointExactly(rows: Table, w: Worker, now: int)
    requires w.batchSize > 0 && DueIds(rows, w.kind, now) != {}
    ensures w.leaseSeconds > 0 <==>
      Elements(ClaimIds(rows, w, now, {})) !! Elements(ClaimIds(AfterClaim(rows, w, now), w, now, {}))
  {
    var ids, next := ClaimIds(rows, w, now, {}), ClaimIds(AfterClaim(rows, w, now), w, now, {});
    ClaimIsPrefix(rows, w, now);
    if w.leaseSeconds > 0 {
      ClaimIdsSound(AfterClaim(rows, w, now), w, now, {});
      forall id | id in ids ensures id !in next {
      }
    } else {
      LeaselessClaimRepeats(rows, w, now);
      assert ids[0] in Elements(ids) * Elements(next);
    }
  }
}
