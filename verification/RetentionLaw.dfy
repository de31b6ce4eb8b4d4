/** What retention keeps, told by the upload rows themselves, and that the ranked query and the batches of
    prunes keep exactly that. */
module RetentionLaw {
  import opened OutboxState
  import opened OutboxInvariant
  import opened PruneRecovery
  import opened Retention
  import opened PruneBatches

  /** Confirmed, and not yet pruned. */
  ghost predicate Ranked(s: State, r: nat) {
    r in s.rows && s.rows[r].confirmed && !s.rows[r].path.PruneQuarantine?
  }

  /** Confirmed later; of rows confirmed at the same time the one with the larger identifier is newer. */
  predicate Newer(s: State, q: nat, r: nat)
    requires q in s.rows && r in s.rows
  {
    s.rows[q].stamp > s.rows[r].stamp || (s.rows[q].stamp == s.rows[r].stamp && q > r)
  }

  ghost function Bytes(s: State, rows: set<nat>): (sum: nat)
    requires rows <= s.rows.Keys
  {
    if rows == {} then 0 else var r :| r in rows; s.rows[r].body.size + Bytes(s, rows - {r})
  }

  /** The policy allows keeping exactly these rows. */
  ghost predicate Retainable(s: State, p: Policy, kept: set<nat>) {
    && (forall r | r in kept :: Ranked(s, r))
    && (forall q, r | Ranked(s, q) && r in kept && Newer(s, q, r) :: q in kept)
    && (p.cutoff.AtMost? ==> forall r | r in kept :: s.rows[r].stamp >= p.cutoff.value)
    && (p.count.AtMost? ==> |kept| <= p.count.value)
    && (p.bytes.AtMost? ==> kept <= s.rows.Keys && Bytes(s, kept) <= p.bytes.value)
  }

  /** The most that the policy allows keeping. */
  ghost predicate Retained(s: State, p: Policy, kept: set<nat>) {
    Retainable(s, p, kept) && forall other | Retainable(s, p, other) :: other <= kept
  }

  ghost function Excluded(s: State, kept: set<nat>): (rows: set<nat>) {
    set r | r in s.rows && Ranked(s, r) && r !in kept
  }

  /** What the query must return: the oldest of the rows that are not kept, oldest first. */
  ghost predicate Returns(s: State, kept: set<nat>, limit: nat, rows: seq<nat>) {
    && (forall k | 0 <= k < |rows| :: rows[k] in Excluded(s, kept))
    && (forall j, k | 0 <= j < k < |rows| :: Newer(s, rows[k], rows[j]))
    && (forall k, r | 0 <= k < |rows| && r in Excluded(s, kept) && r !in rows :: Newer(s, r, rows[k]))
    && |rows| == if |Excluded(s, kept)| < limit then |Excluded(s, kept)| else limit
  }

  /* The query's table is these rows. */

  lemma {:induction false} BytesWithout(s: State, rows: set<nat>, r: nat)
    requires rows <= s.rows.Keys && r in rows
    ensures Bytes(s, rows) == s.rows[r].body.size + Bytes(s, rows - {r})
    decreases |rows|
  {
    var q :| q in rows && Bytes(s, rows) == s.rows[q].body.size + Bytes(s, rows - {q});
    if q != r {
      BytesWithout(s, rows - {q}, r);
      BytesWithout(s, rows - {r}, q);
      assert rows - {q} - {r} == rows - {r} - {q};
    }
  }

  lemma {:induction false} SizesAreBytes(s: State, rows: set<nat>)
    requires rows <= Candidates(s).Keys
    ensures rows <= s.rows.Keys && SizeOf(Candidates(s), rows) == Bytes(s, rows)
    decreases |rows|
  {
    if rows != {} {
      var r :| r in rows;
      SizesAreBytes(s, rows - {r});
      SizeWithout(Candidates(s), rows, r);
      BytesWithout(s, rows, r);
    }
  }

  lemma RankedAreCandidates(s: State, q: nat, r: nat)
    ensures Ranked(s, r) <==> r in Candidates(s)
    ensures q in Candidates(s) && r in Candidates(s) ==> (NoLater(Candidates(s), q, r) <==> Newer(s, q, r) || q == r)
    ensures r in Candidates(s) ==> Candidates(s)[r].stamp == s.rows[r].stamp
  {
  }

  /** A newest-first prefix of the query's table within its limits is what the policy allows keeping. */
  lemma PrefixIsRetainable(s: State, p: Policy, kept: set<nat>)
    ensures Retainable(s, p, kept) <==> Prefix(Candidates(s), kept) && MeetsLimits(Candidates(s), p, kept)
  {
    var t := Candidates(s);
    forall q, r ensures (Ranked(s, r) <==> r in t) && (r in t ==> t[r].stamp == s.rows[r].stamp) && (q in t && r in t ==> (NoLater(t, q, r) <==> Newer(s, q, r) || q == r)) {
      RankedAreCandidates(s, q, r);
    }
    if kept <= t.Keys {
      SizesAreBytes(s, kept);
    }
    hide Ranked, Candidates, Newer, NoLater;
  }

  /** The rows the query does not select are the most the policy allows keeping. */
  lemma UnselectedAreRetained(s: State, p: Policy)
    ensures Retained(s, p, Candidates(s).Keys - Selected(Candidates(s), p))
  {
    var t := Candidates(s);
    KeptIsLongestPrefix(t, p);
    PrefixIsRetainable(s, p, t.Keys - Selected(t, p));
    forall other | Retainable(s, p, other) ensures other <= t.Keys - Selected(t, p) {
      PrefixIsRetainable(s, p, other);
    }
  }

  /** So the rows to keep are determined, and the query selects exactly the others. */
  lemma SelectedAreExcluded(s: State, p: Policy, kept: set<nat>)
    requires Retained(s, p, kept)
    ensures kept == Candidates(s).Keys - Selected(Candidates(s), p)
    ensures Excluded(s, kept) == Selected(Candidates(s), p)
  {
    UnselectedAreRetained(s, p);
    forall r ensures Ranked(s, r) <==> r in Candidates(s) {
      RankedAreCandidates(s, r, r);
    }
    hide Ranked, Candidates, Retainable;
  }

  /** The ranked, cumulative query returns a sequence if and only if it is the oldest rows that the policy
      does not keep, oldest first, as many as asked for. */
  lemma QueryFollowsRows(s: State, p: Policy, kept: set<nat>, limit: nat, rows: seq<nat>)
    requires Retained(s, p, kept)
    ensures Answer(Candidates(s), p, limit, rows) <==> Returns(s, kept, limit, rows)
  {
    SelectedAreExcluded(s, p, kept);
    var t := Candidates(s);
    forall q, r ensures (Ranked(s, r) <==> r in t) && (q in t && r in t ==> (NoLater(t, q, r) <==> Newer(s, q, r) || q == r)) {
      RankedAreCandidates(s, q, r);
    }
    assert forall r | r in Excluded(s, kept) :: Ranked(s, r);
    hide Ranked, Candidates, Newer, NoLater, Selected, Excluded, Retained;
    if Returns(s, kept, limit, rows) {
      forall j, k | 0 <= j < k < |rows| ensures rows[j] != rows[k] && NoLater(t, rows[k], rows[j]) {
        NewerIsOther(s, rows[k], rows[j]);
      }
    }
  }

  lemma NewerIsOther(s: State, q: nat, r: nat)
    requires q in s.rows && r in s.rows && Newer(s, q, r)
    ensures q != r
  {
  }

  /* What batches of prunes leave. */

  /** Whatever batches are run, every row the policy keeps stays as it is, and so does every other row but
      those it excludes; once the batches have had room for these beside the rows that unfinished prunes
      hold, exactly they are pruned, but for the held ones. */
  lemma BatchesKeepRetained(s: State, p: Policy, limits: seq<nat>, t: State, kept: set<nat>)
    requires Inv(s) && BatchesPruned(s, p, limits, t) && Retained(s, p, kept)
    ensures t.rows.Keys == s.rows.Keys
    ensures forall r | r in s.rows && t.rows[r] != s.rows[r] ::
              Ranked(s, r) && r !in kept && !Held(s, r) && t.rows[r].path.PruneQuarantine? && t.rows[r] == s.rows[r].(path := t.rows[r].path)
    ensures var held := set r | r in Excluded(s, kept) && Held(s, r);
            Room(limits, |held|) >= |Excluded(s, kept) - held| ==>
              forall r | r in s.rows && Ranked(s, r) && r !in kept && !Held(s, r) :: t.rows[r].path.PruneQuarantine?
  {
    var pruned, excluded, held := Candidates(s).Keys - Candidates(t).Keys, Excluded(s, kept), set r | r in Excluded(s, kept) && Held(s, r);
    hide Inv, Candidates, Selected, Retained, Held, BatchesPruned, Stuck, Excluded, OnlyPruned, Ranked;
    BatchesPruneTheSelection(s, p, limits, t);
    SelectedAreExcluded(s, p, kept);
    StuckAreHeld(s, kept);
    assert excluded * Stuck(s) == held && excluded - Stuck(s) == excluded - held;
    PrunedRows(s, t, kept, pruned);
  }

  lemma PrunedRows(s: State, t: State, kept: set<nat>, pruned: set<nat>)
    requires OnlyPruned(s, t, pruned) && forall r | r in pruned :: r in Excluded(s, kept) && !Held(s, r)
    ensures t.rows.Keys == s.rows.Keys
    ensures forall r | r in s.rows && t.rows[r] != s.rows[r] ::
              Ranked(s, r) && r !in kept && !Held(s, r) && t.rows[r].path.PruneQuarantine? && t.rows[r] == s.rows[r].(path := t.rows[r].path)
    ensures forall r | r in pruned :: r in t.rows && t.rows[r].path.PruneQuarantine?
    ensures forall r | r in s.rows && Ranked(s, r) && r !in kept && !Held(s, r) ::
              r in Excluded(s, kept) - (set q | q in Excluded(s, kept) && Held(s, q))
  {
    hide Held, Ranked;
  }

  /** One call: of the rows its query returned it prunes those that no unfinished prune holds, and these are
      the oldest rows that the policy does not keep. */
  lemma OneBatchLaw(s: State, p: Policy, limit: nat, rows: seq<nat>, t: State)
    requires Inv(s) && OneBatchPruned(s, p, limit, rows, t)
    ensures t.rows.Keys == s.rows.Keys
    ensures forall r | r in s.rows :: t.rows[r] != s.rows[r] <==> r in rows && !Held(s, r)
    ensures forall kept | Retained(s, p, kept) :: Returns(s, kept, limit, rows)
  {
    BatchProgress(s, p, limit, rows, t);
    forall k | 0 <= k < |rows| ensures rows[k] in Candidates(s) && (rows[k] in Stuck(s) <==> Held(s, rows[k])) {
      StuckIffHeld(s, rows[k]);
    }
    BatchRows(s, t, rows);
    forall kept | Retained(s, p, kept) ensures Returns(s, kept, limit, rows) {
      QueryFollowsRows(s, p, kept, limit, rows);
    }
  }

  lemma BatchRows(s: State, t: State, rows: seq<nat>)
    requires OnlyPruned(s, t, Members(rows) - Stuck(s)) && forall k | 0 <= k < |rows| :: rows[k] in Candidates(s) && (rows[k] in Stuck(s) <==> Held(s, rows[k]))
    ensures t.rows.Keys == s.rows.Keys && forall r | r in s.rows :: t.rows[r] != s.rows[r] <==> r in rows && !Held(s, r)
  {
    hide Held, Stuck;
    forall r | r in s.rows ensures r in rows && !Held(s, r) <==> r in Members(rows) - Stuck(s) {
    }
  }

  lemma StuckAreHeld(s: State, kept: set<nat>)
    requires Inv(s)
    ensures forall r | r in Excluded(s, kept) :: r in Stuck(s) <==> Held(s, r)
  {
    forall r | r in Excluded(s, kept) ensures r in Stuck(s) <==> Held(s, r) {
      StuckIffHeld(s, r);
    }
  }
}
