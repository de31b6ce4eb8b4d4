/** The retention query against the outbox it prunes: limited batches prune exactly the rows that one
    unlimited selection over the first table would, but for those an unfinished prune already holds. */
module PruneBatches {
  import opened OutboxState
  import opened OutboxInvariant
  import opened OutboxPlans
  import opened PruneRecovery
  import opened Retention

  /** The rows the query ranks: confirmed, and not yet under a prune quarantine name. */
  ghost function Candidates(s: State): (t: Table) {
    map r | r in s.rows && s.rows[r].confirmed && !s.rows[r].path.PruneQuarantine? :: Entry(s.rows[r].stamp, s.rows[r].body.size)
  }

  /** The candidates that a batch passes over. */
  ghost function Stuck(s: State): (rows: set<nat>) {
    set r | r in Candidates(s) && !Prunable(s, r)
  }

  /** An unfinished prune has moved the row's file but not the row. */
  ghost predicate Held(s: State, r: nat) {
    r in s.rows && exists o :: HeldBy(s, r, o)
  }

  /** A candidate is passed over exactly when an unfinished prune holds it. */
  lemma StuckIffHeld(s: State, r: nat)
    requires Inv(s) && r in Candidates(s)
    ensures r in Stuck(s) <==> Held(s, r)
  {
    assert RowOk(s, r);
    forall o | HeldBy(s, r, o) ensures s.rows[r].path !in s.outbox {
      assert OperationOk(s, o);
    }
  }

  /** Until a prune of it has moved the row, a candidate that it has moved the file of is stuck. */
  lemma CutOffPruneIsStuck(s: State, r: nat, o: nat, q: Name, k: nat)
    requires Inv(s) && Prunable(s, r) && FreshFor(s, o, q) && 3 <= k < 5
    ensures var ws := PrunePlan(o, NewOperation(s, r, q));
            LegalRun(s, ws[..k]) && Candidates(Run(s, ws[..k])) == Candidates(s) && r in Stuck(Run(s, ws[..k]))
  {
    PruneRuns(s, o, NewOperation(s, r, q), k);
    hide Inv;
  }

  /** The rows are pruned one after the other, each under an operation and a name not used before; a
      row whose file is not in place is passed over. */
  ghost predicate BatchPruned(s: State, rows: seq<nat>, t: State)
    decreases |rows|
  {
    if rows == [] then t == s
    else if !Prunable(s, rows[0]) then BatchPruned(s, rows[1..], t)
    else exists o, q :: PrunesFirst(s, rows, o, q) && BatchPruned(AfterPrune(s, rows[0], o, q), rows[1..], t)
  }

  ghost predicate PrunesFirst(s: State, rows: seq<nat>, o: nat, q: Name) {
    && rows != [] && Prunable(s, rows[0]) && FreshFor(s, o, q)
    && LegalRun(s, PrunePlan(o, NewOperation(s, rows[0], q)))
  }

  ghost function AfterPrune(s: State, r: nat, o: nat, q: Name): (t: State)
    requires Prunable(s, r) && LegalRun(s, PrunePlan(o, NewOperation(s, r, q)))
  {
    Run(s, PrunePlan(o, NewOperation(s, r, q)))
  }

  /** Successive batches, each of exactly the rows its query returned. */
  ghost predicate BatchesPruned(s: State, p: Policy, limits: seq<nat>, t: State)
    decreases |limits|
  {
    if limits == [] then t == s
    else exists rows, u :: OneBatchPruned(s, p, limits[0], rows, u) && BatchesPruned(u, p, limits[1..], t)
  }

  ghost predicate OneBatchPruned(s: State, p: Policy, limit: nat, rows: seq<nat>, u: State) {
    Answer(Candidates(s), p, limit, rows) && BatchPruned(s, rows, u)
  }

  /** What pruning leaves alone, and what becomes of the pruned rows. */
  ghost predicate OnlyPruned(s: State, t: State, pruned: set<nat>) {
    && t.active == s.active && t.rows.Keys == s.rows.Keys && pruned <= s.rows.Keys
    && (forall r | r in s.rows && r !in pruned :: t.rows[r] == s.rows[r])
    && (forall r | r in pruned :: t.rows[r].path.PruneQuarantine? && t.rows[r] == s.rows[r].(path := t.rows[r].path))
  }

  lemma OnlyPrunedChains(s: State, t: State, u: State, a: set<nat>, b: set<nat>)
    requires OnlyPruned(s, t, a) && OnlyPruned(t, u, b) && a !! b
    ensures OnlyPruned(s, u, a + b)
  {
  }

  lemma PrunedCandidates(s: State, t: State, pruned: set<nat>)
    requires OnlyPruned(s, t, pruned)
    ensures Candidates(t) == Candidates(s) - pruned
  {
  }

  lemma PathsDiffer(s: State, r: nat, c: nat)
    requires Inv(s) && Prunable(s, r) && c in s.rows && c != r
    ensures s.rows[c].path != s.rows[r].path
  {
    assert RowOk(s, c) && RowOk(s, r);
  }

  lemma StuckStays(s: State, t: State, r: nat, q: Name)
    requires Prunable(s, r) && q.PruneQuarantine? && t.outbox == Rename(s.outbox, s.rows[r].path, q)
    requires t.rows == s.rows[r := s.rows[r].(path := q)]
    requires forall c | c in s.rows && c != r :: s.rows[c].path != s.rows[r].path
    ensures Stuck(t) == Stuck(s)
  {
    forall c | c in s.rows && c != r && s.rows[c].path.Final? ensures Prunable(t, c) <==> Prunable(s, c) {
    }
  }

  lemma OneOutcome(s: State, rows: seq<nat>, o: nat, q: Name)
    requires Inv(s) && PrunesFirst(s, rows, o, q)
    ensures var t := AfterPrune(s, rows[0], o, q);
            && Inv(t) && OnlyPruned(s, t, {rows[0]}) && q.PruneQuarantine? && Prunable(s, rows[0])
            && t.outbox == Rename(s.outbox, s.rows[rows[0]].path, q) && t.rows == s.rows[rows[0] := s.rows[rows[0]].(path := q)]
  {
    hide Inv;
    PruneEffect(s, rows[0], o, q);
    RunKeepsInv(s, PrunePlan(o, NewOperation(s, rows[0], q)));
  }

  /** One prune leaves the other candidates as prunable as they were. */
  lemma OnePruned(s: State, rows: seq<nat>, o: nat, q: Name)
    requires Inv(s) && PrunesFirst(s, rows, o, q)
    ensures var t := AfterPrune(s, rows[0], o, q); Inv(t) && OnlyPruned(s, t, {rows[0]}) && Stuck(t) == Stuck(s)
  {
    hide Inv, LegalRun, Run, AfterPrune, Stuck, OnlyPruned;
    OneOutcome(s, rows, o, q);
    forall c | c in s.rows && c != rows[0] ensures s.rows[c].path != s.rows[rows[0]].path {
      PathsDiffer(s, rows[0], c);
    }
    StuckStays(s, AfterPrune(s, rows[0], o, q), rows[0], q);
  }

  lemma {:induction false} BatchEffect(s: State, rows: seq<nat>, t: State)
    requires Inv(s) && BatchPruned(s, rows, t)
    requires forall k | 0 <= k < |rows| :: rows[k] in Candidates(s)
    requires forall j, k | 0 <= j < k < |rows| :: rows[j] != rows[k]
    ensures Inv(t) && OnlyPruned(s, t, Members(rows) - Stuck(s)) && Stuck(t) == Stuck(s)
    decreases |rows|
  {
    hide Inv, AfterPrune, LegalRun, Run, OnlyPruned;
    if rows == [] {
      assert Members(rows) - Stuck(s) == {};
      NothingPruned(s);
    } else if !Prunable(s, rows[0]) {
      BatchEffect(s, rows[1..], t);
      FirstAndRest(rows);
      assert Members(rows[1..]) - Stuck(s) == Members(rows) - Stuck(s);
    } else {
      var o, q :| PrunesFirst(s, rows, o, q) && BatchPruned(AfterPrune(s, rows[0], o, q), rows[1..], t);
      var u := AfterPrune(s, rows[0], o, q);
      OnePruned(s, rows, o, q);
      PrunedCandidates(s, u, {rows[0]});
      BatchEffect(u, rows[1..], t);
      FirstAndRest(rows);
      OnlyPrunedChains(s, u, t, {rows[0]}, Members(rows[1..]) - Stuck(s));
      assert {rows[0]} + (Members(rows[1..]) - Stuck(s)) == Members(rows) - Stuck(s);
    }
  }

  lemma FirstAndRest(rows: seq<nat>)
    requires rows != [] && forall j, k | 0 <= j < k < |rows| :: rows[j] != rows[k]
    ensures {rows[0]} + Members(rows[1..]) == Members(rows) && {rows[0]} !! Members(rows[1..])
  {
    assert rows == [rows[0]] + rows[1..];
  }

  /** A batch prunes exactly the rows its query returned that no unfinished prune holds; it changes nothing
      at all if and only if they are all held. */
  lemma BatchProgress(s: State, p: Policy, limit: nat, rows: seq<nat>, t: State)
    requires Inv(s) && OneBatchPruned(s, p, limit, rows, t)
    ensures OnlyPruned(s, t, Members(rows) - Stuck(s))
    ensures t == s <==> forall k | 0 <= k < |rows| :: Held(s, rows[k])
  {
    BatchEffect(s, rows, t);
    forall k | 0 <= k < |rows| ensures (rows[k] in Stuck(s) <==> Held(s, rows[k])) && rows[k] in Candidates(s) {
      StuckIffHeld(s, rows[k]);
    }
    hide Inv, Held, Answer;
    if forall k | 0 <= k < |rows| :: rows[k] in Stuck(s) {
      NothingToPrune(s, rows, t);
    } else {
      var k :| 0 <= k < |rows| && rows[k] !in Stuck(s);
      assert rows[k] in Members(rows) - Stuck(s);
      SomethingPruned(s, t, Members(rows) - Stuck(s), rows[k]);
    }
  }

  lemma SomethingPruned(s: State, t: State, pruned: set<nat>, r: nat)
    requires OnlyPruned(s, t, pruned) && r in pruned && r in Candidates(s)
    ensures t != s
  {
  }

  lemma {:induction false} NothingToPrune(s: State, rows: seq<nat>, t: State)
    requires BatchPruned(s, rows, t) && forall k | 0 <= k < |rows| :: !Prunable(s, rows[k])
    ensures t == s
    decreases |rows|
  {
    hide Prunable;
    if rows != [] {
      assert !Prunable(s, rows[0]);
      forall k | 0 <= k < |rows[1..]| ensures !Prunable(s, rows[1..][k]) {
        assert rows[1..][k] == rows[k + 1];
      }
      NothingToPrune(s, rows[1..], t);
    }
  }

  /** The outbox follows the table: batches of prunes drain the query's table. */
  lemma {:induction false} BatchesFollowQuery(s: State, p: Policy, limits: seq<nat>, t: State)
    requires Inv(s) && BatchesPruned(s, p, limits, t)
    ensures Inv(t) && Drained(Candidates(s), p, Stuck(s), limits, Candidates(t))
    ensures OnlyPruned(s, t, Candidates(s).Keys - Candidates(t).Keys)
    decreases |limits|
  {
    hide Inv, OnlyPruned, Candidates, BatchPruned, Stuck;
    if limits == [] {
      assert Candidates(s).Keys - Candidates(t).Keys == {};
      NothingPruned(s);
    } else {
      var rows, u :| OneBatchPruned(s, p, limits[0], rows, u) && BatchesPruned(u, p, limits[1..], t);
      var gone := Members(rows) - Stuck(s);
      BatchEffect(s, rows, u);
      PrunedCandidates(s, u, gone);
      BatchesFollowQuery(u, p, limits[1..], t);
      OnlyPrunedChains(s, u, t, gone, Candidates(u).Keys - Candidates(t).Keys);
      PrunedCandidates(u, t, Candidates(u).Keys - Candidates(t).Keys);
      assert gone <= Candidates(s).Keys;
      assert gone + (Candidates(u).Keys - Candidates(t).Keys) == Candidates(s).Keys - Candidates(t).Keys;
    }
  }

  lemma NothingPruned(s: State)
    ensures OnlyPruned(s, s, {})
  {
  }

  /** From any reachable mix of unfinished prunes: once the batches have had room for the first selection
      beside its stuck rows, the pruned rows are exactly the others it selected; until then they are some
      of them.  Every other row is untouched, and every pruned row differs only in its path. */
  lemma BatchesPruneTheSelection(s: State, p: Policy, limits: seq<nat>, t: State)
    requires Inv(s) && BatchesPruned(s, p, limits, t)
    ensures var pruned, selected := Candidates(s).Keys - Candidates(t).Keys, Selected(Candidates(s), p);
            && OnlyPruned(s, t, pruned) && pruned <= selected - Stuck(s)
            && (Room(limits, |selected * Stuck(s)|) >= |selected - Stuck(s)| ==> pruned == selected - Stuck(s))
  {
    var selected := Selected(Candidates(s), p);
    assert selected <= Candidates(s).Keys;
    hide Inv, OnlyPruned, Candidates, BatchesPruned, Drained, Stuck, Selected;
    BatchesFollowQuery(s, p, limits, t);
    BatchesAgree(Candidates(s), p, Stuck(s), limits, Candidates(t));
    if Room(limits, |selected * Stuck(s)|) >= |selected - Stuck(s)| {
      assert Candidates(s).Keys - (Candidates(s) - (selected - Stuck(s))).Keys == selected - Stuck(s);
    }
  }

  /** With no unfinished record nothing is stuck. */
  lemma NothingStuck(s: State)
    requires Inv(s) && s.active == {}
    ensures Stuck(s) == {}
  {
    hide Inv;
    forall r | r in Stuck(s) ensures false {
      StuckIffHeld(s, r);
    }
  }

  /** Calls of `prune_confirmed` do nothing, one after the other, as long as unfinished prunes hold the oldest
      selected rows and no call asks for more rows than that. */
  lemma {:induction false} HeldRowsBlock(s: State, p: Policy, limit: nat, rows: seq<nat>, limits: seq<nat>, t: State)
    requires Inv(s) && Answer(Candidates(s), p, limit, rows)
    requires forall k | 0 <= k < |rows| :: Held(s, rows[k])
    requires (forall k | 0 <= k < |limits| :: limits[k] <= limit) && BatchesPruned(s, p, limits, t)
    ensures t == s
    decreases |limits|
  {
    hide Inv, Held, Answer, Candidates, BatchPruned;
    if limits != [] {
      var batch, u :| OneBatchPruned(s, p, limits[0], batch, u) && BatchesPruned(u, p, limits[1..], t);
      SmallerBatch(Candidates(s), p, limit, rows, limits[0], batch);
      assert forall k | 0 <= k < |batch| :: batch[k] == rows[k];
      BatchProgress(s, p, limits[0], batch, u);
      HeldRowsBlock(s, p, limit, rows, limits[1..], t);
    }
  }
}
