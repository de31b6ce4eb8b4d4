/** Retention: which confirmed artifacts the ranked, cumulative query picks for pruning. */
module Retention {

  datatype Limit = Unlimited | AtMost(value: nat)

  /** One candidate row: confirmed and not yet under a quarantine name. */
  datatype Entry = Entry(stamp: nat, size: nat)

  type Table = map<nat, Entry>

  /** `cutoff` keeps rows confirmed at or after it; `count` and `bytes` bound what is kept. */
  datatype Policy = Policy(cutoff: Limit, count: Limit, bytes: Limit)

  /** q comes no later than r in ORDER BY stamp DESC, upload_id DESC. */
  predicate NoLater(t: Table, q: nat, r: nat)
    requires q in t && r in t
  {
    t[q].stamp > t[r].stamp || (t[q].stamp == t[r].stamp && q >= r)
  }

  /** The window of row r: every row up to and including it, newest first. */
  ghost function Window(t: Table, r: nat): (w: set<nat>)
    requires r in t
    ensures r in w && w <= t.Keys
  {
    set q | q in t && NoLater(t, q, r)
  }

  ghost function SizeOf(t: Table, rows: set<nat>): (sum: nat)
    requires rows <= t.Keys
  {
    if rows == {} then 0 else var r :| r in rows; t[r].size + SizeOf(t, rows - {r})
  }

  /** The WHERE clause over keep_position and keep_bytes. */
  ghost predicate Excess(t: Table, p: Policy, r: nat)
    requires r in t
  {
    || (p.cutoff.AtMost? && t[r].stamp < p.cutoff.value)
    || (p.count.AtMost? && |Window(t, r)| > p.count.value)
    || (p.bytes.AtMost? && SizeOf(t, Window(t, r)) > p.bytes.value)
  }

  ghost function Selected(t: Table, p: Policy): (rows: set<nat>) {
    set r | r in t && Excess(t, p, r)
  }

  /** What the query returns: the oldest `limit` selected rows, oldest first. */
  ghost predicate Answer(t: Table, p: Policy, limit: nat, rows: seq<nat>) {
    && (forall k | 0 <= k < |rows| :: rows[k] in Selected(t, p))
    && (forall j, k | 0 <= j < k < |rows| :: rows[j] != rows[k] && NoLater(t, rows[k], rows[j]))
    && (forall k, r | 0 <= k < |rows| && r in Selected(t, p) && r !in rows :: NoLater(t, r, rows[k]))
    && |rows| == if |Selected(t, p)| < limit then |Selected(t, p)| else limit
  }

  /* Sums and windows. */

  lemma {:induction false} SizeWithout(t: Table, rows: set<nat>, r: nat)
    requires rows <= t.Keys && r in rows
    ensures SizeOf(t, rows) == t[r].size + SizeOf(t, rows - {r})
    decreases |rows|
  {
    var q :| q in rows && SizeOf(t, rows) == t[q].size + SizeOf(t, rows - {q});
    if q != r {
      SizeWithout(t, rows - {q}, r);
      SizeWithout(t, rows - {r}, q);
      assert rows - {q} - {r} == rows - {r} - {q};
    }
  }

  lemma {:induction false} SmallerSet(t: Table, a: set<nat>, b: set<nat>)
    requires a <= b <= t.Keys
    ensures |a| <= |b| && SizeOf(t, a) <= SizeOf(t, b)
    decreases |a|
  {
    if a != {} {
      var r :| r in a;
      SmallerSet(t, a - {r}, b - {r});
      SizeWithout(t, a, r);
      SizeWithout(t, b, r);
    }
  }

  lemma {:induction false} SameSizes(t: Table, u: Table, rows: set<nat>)
    requires rows <= t.Keys && rows <= u.Keys && forall r | r in rows :: t[r] == u[r]
    ensures SizeOf(t, rows) == SizeOf(u, rows)
    decreases |rows|
  {
    if rows != {} {
      var r :| r in rows;
      SameSizes(t, u, rows - {r});
      SizeWithout(t, rows, r);
      SizeWithout(u, rows, r);
    }
  }

  lemma WindowGrows(t: Table, q: nat, r: nat)
    requires q in t && r in t && NoLater(t, q, r)
    ensures Window(t, q) <= Window(t, r)
  {
  }

  /** Everything older than a selected row is selected too. */
  lemma SelectedIsSuffix(t: Table, p: Policy, q: nat, r: nat)
    requires q in t && r in t && NoLater(t, q, r) && q in Selected(t, p)
    ensures r in Selected(t, p)
  {
    WindowGrows(t, q, r);
    SmallerSet(t, Window(t, q), Window(t, r));
  }

  lemma {:induction false} Oldest(t: Table, rows: set<nat>) returns (r: nat)
    requires rows <= t.Keys && rows != {}
    ensures r in rows && forall q | q in rows :: NoLater(t, q, r)
    decreases |rows|
  {
    var any :| any in rows;
    if rows == {any} {
      r := any;
    } else {
      var rest := Oldest(t, rows - {any});
      r := if NoLater(t, rest, any) then any else rest;
      forall q | q in rows ensures NoLater(t, q, r) {
        assert q == any || q in rows - {any};
      }
    }
  }

  /* What is kept. */

  /** A newest-first prefix of the table. */
  ghost predicate Prefix(t: Table, kept: set<nat>) {
    kept <= t.Keys && forall q, r | q in t && r in kept && NoLater(t, q, r) :: q in kept
  }

  ghost predicate MeetsLimits(t: Table, p: Policy, kept: set<nat>)
    requires kept <= t.Keys
  {
    && (p.cutoff.AtMost? ==> forall r | r in kept :: t[r].stamp >= p.cutoff.value)
    && (p.count.AtMost? ==> |kept| <= p.count.value)
    && (p.bytes.AtMost? ==> SizeOf(t, kept) <= p.bytes.value)
  }

  /** The rows the query does not select are the longest newest-first prefix that meets the age,
      count and byte limits. */
  lemma KeptIsLongestPrefix(t: Table, p: Policy)
    ensures var kept := t.Keys - Selected(t, p);
            && Prefix(t, kept) && MeetsLimits(t, p, kept)
            && forall other | Prefix(t, other) && MeetsLimits(t, p, other) :: other <= kept
  {
    var kept := t.Keys - Selected(t, p);
    forall q, r | q in t && r in kept && NoLater(t, q, r) ensures q in kept {
      if q in Selected(t, p) {
        SelectedIsSuffix(t, p, q, r);
      }
    }
    if kept != {} {
      var r := Oldest(t, kept);
      assert Window(t, r) == kept;
      assert !Excess(t, p, r);
    }
    forall other, r | Prefix(t, other) && MeetsLimits(t, p, other) && r in other ensures r in kept {
      assert Window(t, r) <= other;
      SmallerSet(t, Window(t, r), other);
    }
  }

  /* Batches. */

  ghost function Members(rows: seq<nat>): (s: set<nat>) {
    set r | r in rows
  }

  lemma {:induction false} MembersSize(rows: seq<nat>)
    requires forall j, k | 0 <= j < k < |rows| :: rows[j] != rows[k]
    ensures |Members(rows)| == |rows|
    decreases |rows|
  {
    if rows != [] {
      var n := |rows| - 1;
      MembersSize(rows[..n]);
      assert Members(rows) == Members(rows[..n]) + {rows[n]};
      assert rows[n] !in Members(rows[..n]);
    }
  }

  /** Pruning any rows of one batch leaves the selection of every row outside it as it was, and selects
      nothing new. */
  lemma BatchLeavesRest(t: Table, p: Policy, limit: nat, rows: seq<nat>, gone: set<nat>)
    requires Answer(t, p, limit, rows) && gone <= Members(rows)
    ensures Selected(t - gone, p) - Members(rows) == Selected(t, p) - Members(rows)
    ensures Selected(t - gone, p) <= Selected(t, p) - gone
  {
    var u := t - gone;
    forall r | r in u && r !in rows ensures r in Selected(u, p) <==> r in Selected(t, p) {
      WindowUntouched(t, p, limit, rows, gone, r);
    }
    forall r | r in Selected(u, p) ensures r in Selected(t, p) {
      SmallerWindow(t, p, gone, r);
    }
  }

  lemma WindowUntouched(t: Table, p: Policy, limit: nat, rows: seq<nat>, gone: set<nat>, r: nat)
    requires Answer(t, p, limit, rows) && gone <= Members(rows) && r in t && r !in rows
    ensures var u := t - gone; r in u && (Excess(u, p, r) <==> Excess(t, p, r))
  {
    var u := t - gone;
    forall b | b in rows ensures !NoLater(t, b, r) {
      var k :| 0 <= k < |rows| && rows[k] == b;
      assert r in Selected(t, p) ==> NoLater(t, r, rows[k]);
      if NoLater(t, b, r) {
        SelectedIsSuffix(t, p, b, r);
      }
    }
    assert Window(u, r) == Window(t, r);
    SameSizes(t, u, Window(t, r));
  }

  lemma SmallerWindow(t: Table, p: Policy, gone: set<nat>, r: nat)
    requires r in t - gone && Excess(t - gone, p, r)
    ensures Excess(t, p, r)
  {
    var u := t - gone;
    assert Window(u, r) <= Window(t, r);
    SameSizes(u, t, Window(u, r));
    SmallerSet(t, Window(u, r), Window(t, r));
  }

  /** `after` is what successive limited prunes leave, each pruning what its query returned but for the
      rows that are stuck. */
  ghost predicate Drained(t: Table, p: Policy, stuck: set<nat>, limits: seq<nat>, after: Table)
    decreases |limits|
  {
    if limits == [] then after == t
    else exists rows :: Answer(t, p, limits[0], rows) && Drained(t - (Members(rows) - stuck), p, stuck, limits[1..], after)
  }

  /** What the batches have room for beside n stuck rows each. */
  ghost function Room(limits: seq<nat>, n: nat): nat {
    if limits == [] then 0 else (if limits[0] > n then limits[0] - n else 0) + Room(limits[1..], n)
  }

  lemma {:induction false} MoreRoom(limits: seq<nat>, m: nat, n: nat)
    requires m <= n
    ensures Room(limits, n) <= Room(limits, m)
    decreases |limits|
  {
    if limits != [] {
      MoreRoom(limits[1..], m, n);
    }
  }

  /** Limited batches never prune more than one unlimited selection would, and once they have had room for
      it beside the stuck rows of that selection, they have pruned exactly the others. */
  lemma {:induction false} BatchesAgree(t: Table, p: Policy, stuck: set<nat>, limits: seq<nat>, after: Table)
    requires Drained(t, p, stuck, limits, after)
    ensures after.Keys <= t.Keys && after == t - (t.Keys - after.Keys) && t.Keys - after.Keys <= Selected(t, p) - stuck
    ensures Room(limits, |Selected(t, p) * stuck|) >= |Selected(t, p) - stuck| ==> after == t - (Selected(t, p) - stuck)
    decreases |limits|
  {
    if limits == [] {
      assert |Selected(t, p) - stuck| == 0 ==> Selected(t, p) - stuck == {};
    } else {
      var rows :| Answer(t, p, limits[0], rows) && Drained(t - (Members(rows) - stuck), p, stuck, limits[1..], after);
      BatchesAgree(t - (Members(rows) - stuck), p, stuck, limits[1..], after);
      hide Drained, Selected, Members, Room;
      BatchAgrees(t, p, stuck, limits, rows, after);
    }
  }

  lemma BatchAgrees(t: Table, p: Policy, stuck: set<nat>, limits: seq<nat>, rows: seq<nat>, after: Table)
    requires limits != [] && Answer(t, p, limits[0], rows)
    requires var u := t - (Members(rows) - stuck);
             && after.Keys <= u.Keys && after == u - (u.Keys - after.Keys) && u.Keys - after.Keys <= Selected(u, p) - stuck
             && (Room(limits[1..], |Selected(u, p) * stuck|) >= |Selected(u, p) - stuck| ==> after == u - (Selected(u, p) - stuck))
    ensures after.Keys <= t.Keys && after == t - (t.Keys - after.Keys) && t.Keys - after.Keys <= Selected(t, p) - stuck
    ensures Room(limits, |Selected(t, p) * stuck|) >= |Selected(t, p) - stuck| ==> after == t - (Selected(t, p) - stuck)
  {
    var gone, good, n := Members(rows) - stuck, Selected(t, p) - stuck, |Selected(t, p) * stuck|;
    BatchOfSelected(t, p, stuck, limits[0], rows);
    MoreRoom(limits[1..], |Selected(t - gone, p) * stuck|, n);
    assert Room(limits, n) == (if limits[0] > n then limits[0] - n else 0) + Room(limits[1..], n);
    hide Answer, Selected, Members, Room;
    OneBatch(t, good, gone, after, Room(limits[1..], n));
  }

  lemma BatchOfSelected(t: Table, p: Policy, stuck: set<nat>, limit: nat, rows: seq<nat>)
    requires Answer(t, p, limit, rows)
    ensures var gone := Members(rows) - stuck;
            && Selected(t - gone, p) - stuck == Selected(t, p) - stuck - gone
            && |Selected(t - gone, p) * stuck| <= |Selected(t, p) * stuck|
            && gone <= Selected(t, p) - stuck <= t.Keys
            && (gone == Selected(t, p) - stuck || |gone| + |Selected(t, p) * stuck| >= limit)
  {
    var gone, selected := Members(rows) - stuck, Selected(t, p);
    BatchLeavesRest(t, p, limit, rows, gone);
    MembersSize(rows);
    assert Members(rows) <= selected <= t.Keys;
    var rest := Selected(t - gone, p);
    hide Answer, Members, Selected;
    Shares(Members(rows), selected, rest, stuck);
    if |rows| < limit {
      AllSelected(Members(rows), selected);
    }
  }

  lemma Shares(batch: set<nat>, selected: set<nat>, rest: set<nat>, stuck: set<nat>)
    requires batch <= selected && rest <= selected - (batch - stuck) && rest - batch == selected - batch
    ensures rest - stuck == selected - stuck - (batch - stuck)
    ensures |rest * stuck| <= |selected * stuck|
    ensures |batch - stuck| + |selected * stuck| >= |batch|
  {
    Fewer(rest * stuck, selected * stuck);
    Fewer(batch * stuck, selected * stuck);
    assert batch == (batch - stuck) + batch * stuck;
    forall r | r in selected && r !in stuck && r !in batch - stuck ensures r in rest {
      assert r in selected - batch;
    }
  }

  lemma Fewer(a: set<nat>, b: set<nat>)
    requires a <= b
    ensures |a| <= |b|
  {
    assert b == a + (b - a);
  }

  lemma OneBatch(t: Table, selected: set<nat>, batch: set<nat>, after: Table, rest: nat)
    requires batch <= selected <= t.Keys && after.Keys <= t.Keys - batch
    requires var u := t - batch;
             && after == u - (u.Keys - after.Keys) && u.Keys - after.Keys <= selected - batch
             && (rest >= |selected - batch| ==> after == u - (selected - batch))
    ensures after == t - (t.Keys - after.Keys) && t.Keys - after.Keys <= selected
    ensures rest + |batch| >= |selected| || batch == selected ==> after == t - selected
    ensures |selected - batch| == |selected| - |batch|
  {
    assert selected == batch + (selected - batch);
    assert t - selected == (t - batch) - (selected - batch);
  }

  /** A smaller limit gives the first rows of a larger one's answer. */
  lemma SmallerBatch(t: Table, p: Policy, limit: nat, rows: seq<nat>, smaller: nat, batch: seq<nat>)
    requires Answer(t, p, limit, rows) && Answer(t, p, smaller, batch) && smaller <= limit
    ensures |batch| <= |rows| && batch == rows[..|batch|] && Members(batch) <= Members(rows)
  {
    var first := rows[..|batch|];
    forall k, r | 0 <= k < |first| && r in Selected(t, p) && r !in first ensures NoLater(t, r, first[k]) {
      if r in rows {
        var j :| 0 <= j < |rows| && rows[j] == r;
        assert j >= |batch|;
      }
    }
    AnswerIsUnique(t, p, smaller, first, batch);
  }

  /** The query determines its answer. */
  lemma AnswerIsUnique(t: Table, p: Policy, limit: nat, a: seq<nat>, b: seq<nat>)
    requires Answer(t, p, limit, a) && Answer(t, p, limit, b)
    ensures a == b
  {
    forall k | 0 <= k < |a| ensures a[k] == b[k] {
      SameAt(t, p, limit, a, b, k);
    }
  }

  lemma {:induction false} SameAt(t: Table, p: Policy, limit: nat, a: seq<nat>, b: seq<nat>, k: nat)
    requires Answer(t, p, limit, a) && Answer(t, p, limit, b) && k < |a|
    ensures a[k] == b[k]
    decreases k
  {
    forall j | 0 <= j < k ensures a[j] == b[j] {
      SameAt(t, p, limit, a, b, j);
    }
    RankedNoLater(t, p, limit, a, b, k);
    RankedNoLater(t, p, limit, b, a, k);
  }

  lemma RankedNoLater(t: Table, p: Policy, limit: nat, a: seq<nat>, b: seq<nat>, k: nat)
    requires Answer(t, p, limit, a) && Answer(t, p, limit, b) && k < |a|
    requires forall j | 0 <= j < k :: a[j] == b[j]
    ensures NoLater(t, b[k], a[k])
  {
    if b[k] in a {
      var j :| 0 <= j < |a| && a[j] == b[k];
      assert j >= k;
    }
  }

  /** And there always is one. */
  lemma {:induction false} AnswerExists(t: Table, p: Policy, limit: nat) returns (rows: seq<nat>)
    ensures Answer(t, p, limit, rows)
    decreases limit
  {
    if limit == 0 || Selected(t, p) == {} {
      rows := [];
    } else {
      var shorter := AnswerExists(t, p, limit - 1);
      MembersSize(shorter);
      if |Selected(t, p)| < limit {
        AllSelected(Members(shorter), Selected(t, p));
        rows := shorter;
      } else {
        SomeLeft(Members(shorter), Selected(t, p));
        var r := Oldest(t, Selected(t, p) - Members(shorter));
        rows := shorter + [r];
        forall q | q in Selected(t, p) && q !in rows ensures NoLater(t, q, r) {
          assert forall k | 0 <= k < |shorter| :: rows[k] == shorter[k];
          assert q in Selected(t, p) - Members(shorter);
        }
      }
    }
  }

  lemma SomeLeft(batch: set<nat>, selected: set<nat>)
    requires batch <= selected && |batch| < |selected|
    ensures selected - batch != {}
  {
    assert selected == batch + (selected - batch);
  }

  lemma AllSelected(batch: set<nat>, selected: set<nat>)
    requires batch <= selected && |batch| == |selected|
    ensures batch == selected
  {
    assert selected == batch + (selected - batch);
    assert |selected - batch| == 0;
  }
}
