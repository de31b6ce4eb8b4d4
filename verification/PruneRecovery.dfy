/** Prune recovery refines the prune it completes, whatever point the prune had reached. */
module PruneRecovery {
  import opened OutboxState
  import opened OutboxInvariant
  import opened OutboxPlans

  /** An operation that a recovery pass will open. */
  ghost predicate Recoverable(s: State, o: nat) {
    o in s.active && o !in s.damaged
  }

  /** Another operation of the same row already holds the row's bytes. */
  ghost predicate Overtaken(s: State, o: nat)
    requires o in s.operations
  {
    exists p | p in s.operations :: p != o && s.operations[p].artifact == s.operations[o].artifact && s.operations[p].quarantine in s.outbox
  }

  /** What an uninterrupted prune of o leaves: file and row at the planned name, all three events,
      and the record retired. */
  ghost function Completed(s: State, o: nat): State
    requires o in s.operations && s.operations[o].artifact in s.rows
  {
    var op := s.operations[o];
    s.(outbox := if op.original in s.outbox then Rename(s.outbox, op.original, op.quarantine) else s.outbox,
       rows := s.rows[op.artifact := s.rows[op.artifact].(path := op.quarantine)],
       journal := s.journal[o := [Prepared, Quarantined, SqliteUpdated]],
       active := s.active - {o}, retired := s.retired + {o})
  }

  /** What giving o up leaves: only the journal and the record's directory change. */
  ghost function GivenUp(s: State, o: nat): State
    requires o in s.journal
  {
    s.(journal := if ManualRecoveryRequired in s.journal[o] then s.journal else s.journal[o := s.journal[o] + [ManualRecoveryRequired]],
       active := s.active - {o}, conflicts := s.conflicts + {o})
  }

  /** Every active record is completed or given up, by a test a caller could make beforehand. */
  ghost predicate Wins(s: State, o: nat)
    requires o in s.operations && o in s.journal
  {
    Prepared in s.journal[o] && ManualRecoveryRequired !in s.journal[o] && !Overtaken(s, o)
  }

  lemma LosesWithoutBytes(s: State, o: nat)
    requires Inv(s) && Recoverable(s, o)
    requires Prepared in s.journal[o] && ManualRecoveryRequired !in s.journal[o]
    ensures s.operations[o].original in s.outbox ==> s.operations[o].quarantine !in s.outbox
    ensures Overtaken(s, o) <==> s.operations[o].original !in s.outbox && s.operations[o].quarantine !in s.outbox
    ensures s.operations[o].original in s.outbox ==>
              s.rows[s.operations[o].artifact].path == s.operations[o].original && s.outbox[s.operations[o].original] == s.operations[o].file
  {
    var op := s.operations[o];
    assert OperationOk(s, o) && RowOk(s, op.artifact);
    var n := RowLocation(s, op.artifact);
    if Overtaken(s, o) {
      var p :| p in s.operations && p != o && s.operations[p].artifact == op.artifact && s.operations[p].quarantine in s.outbox;
      assert OperationOk(s, p);
    } else if n == s.rows[op.artifact].path && n.PruneQuarantine? {
      var p :| p in s.operations && s.operations[p].artifact == op.artifact && s.operations[p].quarantine == n;
      assert p == o;
    } else if n != s.rows[op.artifact].path {
      var p :| HeldBy(s, op.artifact, p) && n == s.operations[p].quarantine;
      assert p == o;
    }
  }

  /* One lemma per crash point of the prune, each stepping into the next. */

  ghost predicate Open(s: State, o: nat, log: seq<Stage>) {
    && Recoverable(s, o) && o !in s.retired && o in s.operations && o in s.journal && s.journal[o] == log
    && s.operations[o].artifact in s.rows && s.rows[s.operations[o].artifact].confirmed
  }

  lemma FromSqliteUpdated(s: State, o: nat)
    requires Open(s, o, [Prepared, Quarantined, SqliteUpdated])
    requires s.rows[s.operations[o].artifact].path == s.operations[o].quarantine && s.operations[o].original !in s.outbox
    ensures LegalRun(s, [Retire(o)]) && Run(s, [Retire(o)]) == Completed(s, o)
  {
    var t := Apply(s, Retire(o));
    assert Completed(s, o).rows == s.rows && Completed(s, o).journal == s.journal;
    assert [Retire(o)][1..] == [];
  }

  lemma FromRepointed(s: State, o: nat)
    requires Open(s, o, [Prepared, Quarantined])
    requires s.rows[s.operations[o].artifact].path == s.operations[o].quarantine && s.operations[o].original !in s.outbox
    ensures LegalRun(s, [Append(o, SqliteUpdated), Retire(o)])
    ensures Run(s, [Append(o, SqliteUpdated), Retire(o)]) == Completed(s, o)
  {
    var t := Apply(s, Append(o, SqliteUpdated));
    FromSqliteUpdated(t, o);
    assert [Append(o, SqliteUpdated), Retire(o)][1..] == [Retire(o)];
  }

  lemma FromQuarantined(s: State, o: nat)
    requires Open(s, o, [Prepared, Quarantined])
    requires s.rows[s.operations[o].artifact].path == s.operations[o].original && s.operations[o].original !in s.outbox
    ensures LegalRun(s, [Repoint(o), Append(o, SqliteUpdated), Retire(o)])
    ensures Run(s, [Repoint(o), Append(o, SqliteUpdated), Retire(o)]) == Completed(s, o)
  {
    var t := Apply(s, Repoint(o));
    FromRepointed(t, o);
    assert [Repoint(o), Append(o, SqliteUpdated), Retire(o)][1..] == [Append(o, SqliteUpdated), Retire(o)];
    assert Completed(t, o).rows == Completed(s, o).rows;
  }

  lemma FromMoved(s: State, o: nat)
    requires Open(s, o, [Prepared]) && s.operations[o].quarantine in s.outbox
    requires s.rows[s.operations[o].artifact].path == s.operations[o].original && s.operations[o].original !in s.outbox
    ensures LegalRun(s, [Append(o, Quarantined), Repoint(o), Append(o, SqliteUpdated), Retire(o)])
    ensures Run(s, [Append(o, Quarantined), Repoint(o), Append(o, SqliteUpdated), Retire(o)]) == Completed(s, o)
  {
    var ws := [Append(o, Quarantined), Repoint(o), Append(o, SqliteUpdated), Retire(o)];
    var t := Apply(s, Append(o, Quarantined));
    FromQuarantined(t, o);
    assert ws[1..] == [Repoint(o), Append(o, SqliteUpdated), Retire(o)];
    assert Completed(t, o).journal == Completed(s, o).journal;
  }

  lemma FromPrepared(s: State, o: nat)
    requires Open(s, o, [Prepared]) && s.operations[o].quarantine !in s.outbox && s.operations[o].original in s.outbox
    requires s.operations[o].quarantine != s.operations[o].original
    requires s.outbox[s.operations[o].original] == s.operations[o].file
    requires s.rows[s.operations[o].artifact].path == s.operations[o].original
    ensures LegalRun(s, [Move(o), Append(o, Quarantined), Repoint(o), Append(o, SqliteUpdated), Retire(o)])
    ensures Run(s, [Move(o), Append(o, Quarantined), Repoint(o), Append(o, SqliteUpdated), Retire(o)]) == Completed(s, o)
  {
    var ws := [Move(o), Append(o, Quarantined), Repoint(o), Append(o, SqliteUpdated), Retire(o)];
    var t := Apply(s, Move(o));
    FromMoved(t, o);
    assert ws[1..] == [Append(o, Quarantined), Repoint(o), Append(o, SqliteUpdated), Retire(o)];
  }

  lemma FromManual(s: State, o: nat)
    requires Recoverable(s, o) && o in s.journal && ManualRecoveryRequired in s.journal[o]
    ensures LegalRun(s, [Conflict(o)]) && Run(s, [Conflict(o)]) == GivenUp(s, o)
  {
    assert [Conflict(o)][1..] == [];
  }

  lemma FromUnwinnable(s: State, o: nat)
    requires Recoverable(s, o) && o in s.journal && o in s.operations && ManualRecoveryRequired !in s.journal[o]
    requires Legal(s, Append(o, ManualRecoveryRequired))
    ensures LegalRun(s, GiveUpPlan(s.journal[o], o)) && Run(s, GiveUpPlan(s.journal[o], o)) == GivenUp(s, o)
  {
    var t := Apply(s, Append(o, ManualRecoveryRequired));
    FromManual(t, o);
    assert [Append(o, ManualRecoveryRequired), Conflict(o)][1..] == [Conflict(o)];
  }

  /* Which of those points a recoverable operation is at, and what the branches make of it. */

  /** Operation o has got as far as one of the six points between PREPARED and retirement. */
  ghost predicate AtCrashPoint(s: State, o: nat) {
    && o in s.journal && Open(s, o, s.journal[o])
    && var op, log := s.operations[o], s.journal[o];
    && var path := s.rows[op.artifact].path;
    && (log == [Prepared] || log == [Prepared, Quarantined] || log == [Prepared, Quarantined, SqliteUpdated])
    && op.original != op.quarantine
    && s.rows[op.artifact].body == op.file.body
    && (path == op.original || path == op.quarantine)
    && (op.original in s.outbox ==>
          op.quarantine !in s.outbox && s.outbox[op.original] == op.file && path == op.original && log == [Prepared])
    && (op.original !in s.outbox ==> op.quarantine in s.outbox && s.outbox[op.quarantine] == op.file)
    && (log == [Prepared] ==> path == op.original)
    && (log == [Prepared, Quarantined, SqliteUpdated] ==> path == op.quarantine)
  }

  lemma WinnerIsOpen(s: State, o: nat)
    requires Inv(s) && Recoverable(s, o) && Wins(s, o)
    ensures AtCrashPoint(s, o)
  {
    LosesWithoutBytes(s, o);
    var op := s.operations[o];
    assert OperationOk(s, o) && RowOk(s, op.artifact);
    if s.rows[op.artifact].path.PruneQuarantine? {
      var p :| p in s.operations && s.operations[p].artifact == op.artifact && s.operations[p].quarantine == s.rows[op.artifact].path;
      assert s.operations[p].quarantine in s.outbox;
    }
  }

  /** An undamaged prepared operation that nobody overtook ends exactly as its prune would have. */
  lemma WinnerRecovers(s: State, o: nat)
    requires Inv(s) && Recoverable(s, o) && Wins(s, o)
    ensures LegalRun(s, RecoverPlan(s, o)) && Run(s, RecoverPlan(s, o)) == Completed(s, o)
  {
    hide Inv;
    ActiveIsKnown(s, o);
    WinnerIsOpen(s, o);
    WinnerPlanRuns(s, o);
  }

  lemma WinnerPlanRuns(s: State, o: nat)
    requires AtCrashPoint(s, o)
    ensures LegalRun(s, RecoverPlan(s, o)) && Run(s, RecoverPlan(s, o)) == Completed(s, o)
  {
    var op, log, ws := s.operations[o], s.journal[o], RecoverPlan(s, o);
    if log == [Prepared, Quarantined, SqliteUpdated] {
      FromSqliteUpdated(s, o);
    } else if log == [Prepared, Quarantined] {
      if s.rows[op.artifact].path == op.quarantine {
        assert ws == [Append(o, SqliteUpdated), Retire(o)];
        FromRepointed(s, o);
      } else {
        assert ws == [Repoint(o), Append(o, SqliteUpdated), Retire(o)];
        FromQuarantined(s, o);
      }
    } else if op.quarantine in s.outbox {
      assert ws == [Append(o, Quarantined), Repoint(o), Append(o, SqliteUpdated), Retire(o)];
      FromMoved(s, o);
    } else {
      assert ws == [Move(o), Append(o, Quarantined), Repoint(o), Append(o, SqliteUpdated), Retire(o)];
      FromPrepared(s, o);
    }
  }

  lemma LoserPlan(s: State, o: nat)
    requires Inv(s) && Recoverable(s, o) && !Wins(s, o)
    ensures RecoverPlan(s, o) == GiveUpPlan(s.journal[o], o)
    ensures ManualRecoveryRequired in s.journal[o] || Legal(s, Append(o, ManualRecoveryRequired))
  {
    assert OperationOk(s, o);
    if Prepared in s.journal[o] && ManualRecoveryRequired !in s.journal[o] {
      LosesWithoutBytes(s, o);
      hide Inv;
      OvertakenPlan(s, o);
    } else {
      hide Inv;
      UnpreparedPlan(s, o);
    }
  }

  lemma UnpreparedPlan(s: State, o: nat)
    requires Recoverable(s, o) && o in s.operations && o in s.journal && LogShape(s.journal[o])
    requires Prepared !in s.journal[o] || ManualRecoveryRequired in s.journal[o]
    ensures RecoverPlan(s, o) == GiveUpPlan(s.journal[o], o)
    ensures ManualRecoveryRequired in s.journal[o] || Legal(s, Append(o, ManualRecoveryRequired))
  {
  }

  lemma OvertakenPlan(s: State, o: nat)
    requires Recoverable(s, o) && o in s.operations && o in s.journal && LogShape(s.journal[o])
    requires Prepared in s.journal[o] && ManualRecoveryRequired !in s.journal[o]
    requires s.operations[o].original !in s.outbox && s.operations[o].quarantine !in s.outbox && Quarantined !in s.journal[o]
    ensures RecoverPlan(s, o) == GiveUpPlan(s.journal[o], o)
    ensures Legal(s, Append(o, ManualRecoveryRequired))
  {
  }

  /** Every other one is given up, and then neither file nor row is touched. */
  lemma LoserRecovers(s: State, o: nat)
    requires Inv(s) && Recoverable(s, o) && !Wins(s, o)
    ensures LegalRun(s, RecoverPlan(s, o)) && Run(s, RecoverPlan(s, o)) == GivenUp(s, o)
  {
    hide Inv;
    ActiveIsKnown(s, o);
    LoserPlan(s, o);
    if ManualRecoveryRequired in s.journal[o] {
      FromManual(s, o);
    } else {
      FromUnwinnable(s, o);
    }
  }

  /* The crash points of one prune. */

  ghost predicate FreshFor(s: State, o: nat, quarantine: Name) {
    o !in s.operations && quarantine.PruneQuarantine? && quarantine !in s.used
  }

  function LogAfter(k: nat): (log: seq<Stage>) {
    if k < 2 then [] else if k < 4 then [Prepared] else if k < 6 then [Prepared, Quarantined] else [Prepared, Quarantined, SqliteUpdated]
  }

  /** The state after the first k writes of a prune. */
  ghost function Pruned(s: State, o: nat, op: Operation, k: nat): (t: State)
    requires k <= 7 && op.artifact in s.rows && op.original in s.outbox && op.original != op.quarantine
  {
    if k == 0 then s
    else
      s.(operations := s.operations[o := op],
         used := s.used + {op.quarantine},
         journal := s.journal[o := LogAfter(k)],
         outbox := if k < 3 then s.outbox else Rename(s.outbox, op.original, op.quarantine),
         rows := if k < 5 then s.rows else s.rows[op.artifact := s.rows[op.artifact].(path := op.quarantine)],
         active := if k < 7 then s.active + {o} else s.active - {o},
         retired := if k < 7 then s.retired else s.retired + {o})
  }

  lemma PruneStep(s: State, o: nat, op: Operation, k: nat)
    requires Inv(s) && Prunable(s, op.artifact) && FreshFor(s, o, op.quarantine) && op == NewOperation(s, op.artifact, op.quarantine)
    requires k < 7
    ensures Legal(Pruned(s, o, op, k), PrunePlan(o, op)[k])
    ensures Apply(Pruned(s, o, op, k), PrunePlan(o, op)[k]) == Pruned(s, o, op, k + 1)
  {
    FreshName(s, op.quarantine);
    assert o !in s.active && o !in s.retired && o !in s.damaged;
    PruneStepFrom(s, o, op, k);
  }

  lemma PruneStepFrom(s: State, o: nat, op: Operation, k: nat)
    requires Prunable(s, op.artifact) && FreshFor(s, o, op.quarantine) && op == NewOperation(s, op.artifact, op.quarantine)
    requires k < 7 && op.quarantine !in s.outbox && o !in s.active && o !in s.retired && o !in s.damaged
    ensures Legal(Pruned(s, o, op, k), PrunePlan(o, op)[k])
    ensures Apply(Pruned(s, o, op, k), PrunePlan(o, op)[k]) == Pruned(s, o, op, k + 1)
  {
    if k == 1 || k == 3 || k == 5 {
      PruneAppendStep(s, o, op, k);
    } else if k == 0 {
      assert Apply(s, CreateActive(o, op)).journal == Pruned(s, o, op, 1).journal;
    } else if k == 6 {
      assert s.active + {o} - {o} == s.active - {o};
    }
  }

  lemma PruneAppendStep(s: State, o: nat, op: Operation, k: nat)
    requires Prunable(s, op.artifact) && FreshFor(s, o, op.quarantine) && op == NewOperation(s, op.artifact, op.quarantine)
    requires (k == 1 || k == 3 || k == 5) && op.quarantine !in s.outbox && o !in s.active && o !in s.retired && o !in s.damaged
    ensures Legal(Pruned(s, o, op, k), PrunePlan(o, op)[k])
    ensures Apply(Pruned(s, o, op, k), PrunePlan(o, op)[k]) == Pruned(s, o, op, k + 1)
  {
    var t := Pruned(s, o, op, k);
    var stage := if k == 1 then Prepared else if k == 3 then Quarantined else SqliteUpdated;
    assert PrunePlan(o, op)[k] == Append(o, stage);
    assert t.journal[o] + [stage] == LogAfter(k + 1);
    assert t.journal[o := LogAfter(k + 1)] == Pruned(s, o, op, k + 1).journal;
  }

  lemma {:induction false} PruneRuns(s: State, o: nat, op: Operation, k: nat)
    requires Inv(s) && Prunable(s, op.artifact) && FreshFor(s, o, op.quarantine) && op == NewOperation(s, op.artifact, op.quarantine)
    requires k <= 7
    ensures LegalRun(s, PrunePlan(o, op)[..k]) && Run(s, PrunePlan(o, op)[..k]) == Pruned(s, o, op, k)
  {
    hide Inv;
    if k > 0 {
      var ws := PrunePlan(o, op);
      PruneRuns(s, o, op, k - 1);
      PruneStep(s, o, op, k - 1);
      var t := Pruned(s, o, op, k - 1);
      assert [ws[k - 1]][1..] == [];
      assert LegalRun(t, [ws[k - 1]]) && Run(t, [ws[k - 1]]) == Pruned(s, o, op, k);
      RunAppend(s, ws[..k - 1], [ws[k - 1]]);
      assert ws[..k - 1] + [ws[k - 1]] == ws[..k];
    }
  }

  /** Recovery refines the prune: after a crash anywhere between PREPARED and retirement, recovery
      makes exactly the writes the crash cut off, and ends in the state of the uninterrupted prune. */
  lemma CrashedPruneRecovers(s: State, r: nat, o: nat, quarantine: Name, k: nat)
    requires Inv(s) && Prunable(s, r) && FreshFor(s, o, quarantine) && 2 <= k < 7
    ensures var ws := PrunePlan(o, NewOperation(s, r, quarantine));
            && LegalRun(s, ws) && LegalRun(s, ws[..k])
            && var crashed := Run(s, ws[..k]);
            && Recoverable(crashed, o) && o in crashed.operations && o in crashed.journal
            && RecoverPlan(crashed, o) == ws[k..]
            && LegalRun(crashed, ws[k..])
            && Run(crashed, RecoverPlan(crashed, o)) == Run(s, ws)
  {
    hide RowsOk, OperationsOk, IntentsOk;
    var op := NewOperation(s, r, quarantine);
    var ws := PrunePlan(o, op);
    PruneRuns(s, o, op, k);
    PruneRuns(s, o, op, 7);
    assert ws[..7] == ws;
    assert ws[..k] + ws[k..] == ws;
    RunSplit(s, ws[..k], ws[k..]);
    NewOperationIsNowhere(s, o, quarantine);
    CutOffWrites(s, o, op, k);
  }

  lemma NewOperationIsNowhere(s: State, o: nat, quarantine: Name)
    requires NamesOk(s) && FreshFor(s, o, quarantine)
    ensures o !in s.active && o !in s.retired && o !in s.damaged && quarantine !in s.outbox
  {
  }

  lemma CutOffWrites(s: State, o: nat, op: Operation, k: nat)
    requires Prunable(s, op.artifact) && FreshFor(s, o, op.quarantine) && op == NewOperation(s, op.artifact, op.quarantine)
    requires 2 <= k < 7 && o !in s.retired && op.quarantine !in s.outbox
    ensures RecoverPlan(Pruned(s, o, op, k), o) == PrunePlan(o, op)[k..]
  {
    var t, ws := Pruned(s, o, op, k), PrunePlan(o, op);
    if k == 2 {
      assert RecoverPlan(t, o) == [Move(o), Append(o, Quarantined)] + [Repoint(o), Append(o, SqliteUpdated), Retire(o)];
    } else if k == 3 {
      assert RecoverPlan(t, o) == [Append(o, Quarantined)] + [Repoint(o), Append(o, SqliteUpdated), Retire(o)];
    } else if k == 4 {
      assert RecoverPlan(t, o) == [] + [Repoint(o), Append(o, SqliteUpdated), Retire(o)];
    } else if k == 5 {
      assert RecoverPlan(t, o) == [] + [Append(o, SqliteUpdated), Retire(o)];
    } else {
      assert RecoverPlan(t, o) == [Retire(o)];
    }
  }

  /** The whole effect of an uninterrupted prune. */
  lemma PruneEffect(s: State, r: nat, o: nat, quarantine: Name)
    requires Inv(s) && Prunable(s, r) && FreshFor(s, o, quarantine)
    ensures var ws := PrunePlan(o, NewOperation(s, r, quarantine));
            && LegalRun(s, ws)
            && var t := Run(s, ws);
            && t.outbox == Rename(s.outbox, s.rows[r].path, quarantine)
            && t.rows == s.rows[r := s.rows[r].(path := quarantine)]
            && o in t.retired && t.active == s.active && t.conflicts == s.conflicts
            && o in t.journal && t.journal[o] == [Prepared, Quarantined, SqliteUpdated]
  {
    hide RowsOk, OperationsOk, IntentsOk;
    var op := NewOperation(s, r, quarantine);
    PruneRuns(s, o, op, 7);
    assert PrunePlan(o, op)[..7] == PrunePlan(o, op);
    assert o !in s.active;
  }

  /** A crash before PREPARED leaves file and row alone, and recovery only files the record away. */
  lemma CrashBeforePrepared(s: State, r: nat, o: nat, quarantine: Name)
    requires Inv(s) && Prunable(s, r) && FreshFor(s, o, quarantine)
    ensures var ws := PrunePlan(o, NewOperation(s, r, quarantine));
            && LegalRun(s, ws[..1])
            && var crashed := Run(s, ws[..1]);
            && Recoverable(crashed, o) && o in crashed.operations && o in crashed.journal
            && LegalRun(crashed, RecoverPlan(crashed, o))
            && var t := Run(crashed, RecoverPlan(crashed, o));
            && t.outbox == s.outbox && t.rows == s.rows && t.active == s.active
            && o in t.conflicts && o in t.journal && t.journal[o] == [ManualRecoveryRequired]
  {
    hide RowsOk, OperationsOk, IntentsOk;
    var op := NewOperation(s, r, quarantine);
    PruneRuns(s, o, op, 1);
    var crashed := Pruned(s, o, op, 1);
    assert o !in s.active && o !in s.damaged;
    RunKeepsInv(s, PrunePlan(o, op)[..1]);
    assert crashed.journal[o] == [];
    LoserRecovers(crashed, o);
  }
}
