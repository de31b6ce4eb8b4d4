/** What holds in every state the outbox can reach, whatever was staged, confirmed, pruned, recovered
    or cut short on the way. */
module OutboxSafety {
  import opened OutboxState
  import opened OutboxInvariant

  ghost predicate Reachable(s: State) {
    exists ws :: LegalRun(EMPTY, ws) && Run(EMPTY, ws) == s
  }

  lemma ReachableInv(s: State)
    requires Reachable(s)
    ensures Inv(s)
  {
    var ws :| LegalRun(EMPTY, ws) && Run(EMPTY, ws) == s;
    InitialInv();
    RunKeepsInv(EMPTY, ws);
  }

  /** Conservation: the bytes a row was inserted for are in the outbox under exactly one name, which
      is the row's path or, while a prune of that row is unfinished, that prune's planned name. */
  lemma Conservation(s: State, r: nat) returns (n: Name)
    requires Reachable(s) && r in s.rows
    ensures r in s.born && s.born[r].body == s.rows[r].body
    ensures forall m | m in s.outbox :: s.outbox[m] == s.born[r] <==> m == n
    ensures n in s.outbox
    ensures n == s.rows[r].path || exists o :: HeldBy(s, r, o) && n == s.operations[o].quarantine
  {
    ReachableInv(s);
    assert RowOk(s, r);
    n := RowLocation(s, r);
  }

  /** Two rows never share a file. */
  lemma RowsShareNoFile(s: State, q: nat, r: nat)
    requires Reachable(s) && q in s.rows && r in s.rows && q != r
    ensures q in s.born && r in s.born && s.born[q].inode != s.born[r].inode
    ensures s.rows[q].path in s.outbox ==> s.rows[q].path != s.rows[r].path
  {
    ReachableInv(s);
    assert RowOk(s, q) && RowOk(s, r);
  }

  /** A row not yet confirmed has its file at its own path, and so has every row no unfinished prune
      record names. */
  lemma FileAtItsPath(s: State, r: nat)
    requires Reachable(s) && r in s.rows
    requires !s.rows[r].confirmed || forall o | o in s.active :: o in s.operations && s.operations[o].artifact != r
    ensures s.rows[r].path in s.outbox && r in s.born && s.outbox[s.rows[r].path] == s.born[r]
  {
    ReachableInv(s);
    assert RowOk(s, r);
  }

  /** Stage events come in order and each one witnesses its fact: QUARANTINED that the file is at the
      planned name, SQLITE_UPDATED that the row points there.  A file leaves its original name only
      after PREPARED, and a row its original path only after QUARANTINED. */
  lemma JournalOrder(s: State, o: nat)
    requires Reachable(s) && o in s.operations
    ensures o in s.journal && LogShape(s.journal[o])
    ensures s.operations[o].artifact in s.rows
    ensures Quarantined in s.journal[o] ==> s.operations[o].quarantine in s.outbox && s.operations[o].original !in s.outbox
    ensures SqliteUpdated in s.journal[o] <==> s.journal[o] == [Prepared, Quarantined, SqliteUpdated]
    ensures SqliteUpdated in s.journal[o] ==> s.rows[s.operations[o].artifact].path == s.operations[o].quarantine
    ensures s.operations[o].quarantine in s.outbox ==> Prepared in s.journal[o]
    ensures s.rows[s.operations[o].artifact].path == s.operations[o].quarantine ==> Quarantined in s.journal[o]
    ensures ManualRecoveryRequired in s.journal[o] ==>
              s.operations[o].quarantine !in s.outbox && s.rows[s.operations[o].artifact].path != s.operations[o].quarantine
  {
    ReachableInv(s);
    assert OperationOk(s, o) && RowOk(s, s.operations[o].artifact);
  }

  /** Operation p of the same row holds the bytes that o was prepared to move. */
  ghost predicate Beats(s: State, p: nat, o: nat) {
    && p != o && p in s.operations && o in s.operations
    && s.operations[p].artifact == s.operations[o].artifact
    && s.operations[p].quarantine in s.outbox
  }

  /** A prepared operation is only given up when another operation of its row has the bytes. */
  ghost predicate LosersBeaten(s: State) {
    forall o | o in s.journal && s.journal[o] == [Prepared, ManualRecoveryRequired] :: exists p :: Beats(s, p, o)
  }

  lemma GivenUpMeansBeaten(s: State, o: nat)
    requires Inv(s) && Legal(s, Append(o, ManualRecoveryRequired)) && s.journal[o] == [Prepared]
    ensures exists p :: Beats(s, p, o)
  {
    assert OperationOk(s, o);
    var p := Holder(s, s.operations[o].artifact, s.operations[o].original);
    assert Beats(s, p, o);
  }

  /** When a row's bytes are no longer at a final name, some operation of the row has them. */
  lemma Holder(s: State, r: nat, original: Name) returns (p: nat)
    requires Inv(s) && r in s.rows && original !in s.outbox && (s.rows[r].path == original || s.rows[r].path.PruneQuarantine?)
    ensures p in s.operations && s.operations[p].artifact == r && s.operations[p].quarantine in s.outbox
  {
    hide IntentsOk, FilesOk;
    assert RowOk(s, r);
    var n := RowLocation(s, r);
    if n == s.rows[r].path {
      p :| p in s.operations && s.operations[p].artifact == r && s.operations[p].quarantine == n;
    } else {
      p :| HeldBy(s, r, p) && n == s.operations[p].quarantine;
    }
  }

  lemma NewLoser(s: State, w: Write, o: nat)
    requires Legal(s, w) && o in Apply(s, w).journal && Apply(s, w).journal[o] == [Prepared, ManualRecoveryRequired]
    ensures o in s.journal
    ensures s.journal[o] == [Prepared, ManualRecoveryRequired] || (s.journal[o] == [Prepared] && w == Append(o, ManualRecoveryRequired))
  {
    if w.Append? && w.o == o {
      var log := s.journal[o];
      assert log == (log + [w.stage])[..|log|];
      assert w.stage == (log + [w.stage])[|log|];
    }
  }

  lemma WriteKeepsLosersBeaten(s: State, w: Write)
    requires Inv(s) && Legal(s, w) && LosersBeaten(s)
    ensures LosersBeaten(Apply(s, w))
  {
    hide Inv;
    var t := Apply(s, w);
    forall o | o in t.journal && t.journal[o] == [Prepared, ManualRecoveryRequired] ensures exists p :: Beats(t, p, o) {
      LoserStaysBeaten(s, w, o);
    }
  }

  lemma LoserStaysBeaten(s: State, w: Write, o: nat)
    requires Inv(s) && Legal(s, w) && LosersBeaten(s)
    requires o in Apply(s, w).journal && Apply(s, w).journal[o] == [Prepared, ManualRecoveryRequired]
    ensures exists p :: Beats(Apply(s, w), p, o)
  {
    hide Inv;
    NewLoser(s, w, o);
    if s.journal[o] == [Prepared] {
      GivenUpMeansBeaten(s, o);
    }
    var p :| Beats(s, p, o);
    QuarantineStays(s, w, p);
    QuarantineStays(s, w, o);
    assert Beats(Apply(s, w), p, o);
  }

  /** A pruned file never leaves its quarantine name, and an operation never changes. */
  lemma QuarantineStays(s: State, w: Write, p: nat)
    requires Inv(s) && Legal(s, w) && p in s.operations
    ensures p in Apply(s, w).operations && Apply(s, w).operations[p] == s.operations[p]
    ensures s.operations[p].quarantine in s.outbox ==> s.operations[p].quarantine in Apply(s, w).outbox
  {
    hide RowsOk;
    assert OperationOk(s, p);
    if w.Publish? {
      assert IntentOk(s, w.i);
    }
    if w.Move? {
      assert OperationOk(s, w.o);
    }
  }

  lemma {:induction false} RunKeepsLosersBeaten(s: State, ws: seq<Write>)
    requires Inv(s) && LosersBeaten(s) && LegalRun(s, ws)
    ensures LosersBeaten(Run(s, ws))
    decreases |ws|
  {
    hide Inv;
    if ws != [] {
      WriteKeepsLosersBeaten(s, ws[0]);
      LegalWriteKeepsInv(s, ws[0]);
      RunKeepsLosersBeaten(Apply(s, ws[0]), ws[1..]);
    }
  }

  /** MANUAL_RECOVERY_REQUIRED is written for an active record without PREPARED, or for one that lost
      its row's bytes to another operation.  With a single operation on a row it therefore means that
      PREPARED was never written, and file and row are where they were. */
  lemma ManualOnlyWithoutPrepared(s: State, o: nat)
    requires Reachable(s) && o in s.operations
    requires forall p | p in s.operations && p != o :: s.operations[p].artifact != s.operations[o].artifact
    requires o in s.journal && ManualRecoveryRequired in s.journal[o]
    ensures s.journal[o] == [ManualRecoveryRequired]
    ensures s.operations[o].artifact in s.rows
    ensures s.rows[s.operations[o].artifact].path == s.operations[o].original
    ensures s.operations[o].original in s.outbox && s.outbox[s.operations[o].original] == s.operations[o].file
  {
    hide RowsOk, IntentsOk;
    ReachableInv(s);
    assert OperationOk(s, o);
    NothingMovedAlone(s, o);
    var ws :| LegalRun(EMPTY, ws) && Run(EMPTY, ws) == s;
    InitialInv();
    RunKeepsLosersBeaten(EMPTY, ws);
  }

  lemma NothingMovedAlone(s: State, o: nat)
    requires Inv(s) && o in s.operations && s.operations[o].quarantine !in s.outbox
    requires forall p | p in s.operations && p != o :: s.operations[p].artifact != s.operations[o].artifact
    ensures s.operations[o].artifact in s.rows
    ensures s.rows[s.operations[o].artifact].path == s.operations[o].original
    ensures s.operations[o].original in s.outbox && s.outbox[s.operations[o].original] == s.operations[o].file
  {
    assert OperationOk(s, o) && RowOk(s, s.operations[o].artifact);
    var n := RowLocation(s, s.operations[o].artifact);
  }

  /** At most one prune of a row is ever retired, and it is the one whose name the row carries. */
  lemma OneRetiredPerRow(s: State, o: nat, p: nat)
    requires Reachable(s) && o in s.retired && p in s.retired
    requires o in s.operations && p in s.operations && s.operations[o].artifact == s.operations[p].artifact
    ensures o == p
  {
    ReachableInv(s);
    assert OperationOk(s, o) && OperationOk(s, p);
  }

  /* What a run can no longer undo. */

  /** The bytes of row r have left the name they were published under. */
  ghost predicate Moved(s: State, r: nat) {
    r in s.rows && (s.rows[r].path.PruneQuarantine? || s.rows[r].path !in s.outbox)
  }

  /** How often a run renames the bytes of row r. */
  ghost function MovesOf(s: State, ws: seq<Write>, r: nat): nat
    requires LegalRun(s, ws)
    decreases |ws|
  {
    if ws == [] then 0
    else
      (if ws[0].Move? && s.operations[ws[0].o].artifact == r then 1 else 0) + MovesOf(Apply(s, ws[0]), ws[1..], r)
  }

  lemma MovedStaysMoved(s: State, w: Write, r: nat)
    requires Inv(s) && Legal(s, w) && Moved(s, r)
    ensures Moved(Apply(s, w), r)
    ensures w.Move? ==> s.operations[w.o].artifact != r
  {
    if w.Move? {
      MoveElsewhere(s, w.o, r);
    } else if w.Publish? {
      PublishElsewhere(s, w.i, r);
    } else {
      RowPathUnprivate(s, r);
      forall o | o in s.operations ensures s.operations[o].quarantine.PruneQuarantine? {
        assert OperationOk(s, o);
      }
      OtherWriteKeepsMoved(s, w, r);
    }
  }

  lemma MoveElsewhere(s: State, o: nat, r: nat)
    requires NamesOk(s) && OperationsOk(s) && Legal(s, Move(o)) && Moved(s, r)
    ensures s.operations[o].artifact != r
    ensures Moved(Apply(s, Move(o)), r)
  {
    assert OperationOk(s, o);
  }

  lemma PublishElsewhere(s: State, i: nat, r: nat)
    requires Inv(s) && Legal(s, Publish(i)) && Moved(s, r)
    ensures Moved(Apply(s, Publish(i)), r)
  {
    hide RowsOk, OperationsOk, FilesOk;
    assert IntentOk(s, i);
  }

  lemma RowPathUnprivate(s: State, r: nat)
    requires NamesOk(s) && RowsOk(s) && r in s.rows
    ensures s.rows[r].path.Final? || s.rows[r].path.PruneQuarantine?
  {
    assert RowOk(s, r);
  }

  lemma OtherWriteKeepsMoved(s: State, w: Write, r: nat)
    requires Legal(s, w) && Moved(s, r) && !w.Move? && !w.Publish?
    requires s.born.Keys == s.rows.Keys && (s.rows[r].path.Final? || s.rows[r].path.PruneQuarantine?)
    requires forall o | o in s.operations :: s.operations[o].quarantine.PruneQuarantine?
    ensures Moved(Apply(s, w), r)
  {
  }

  lemma MoveMoves(s: State, o: nat)
    requires Inv(s) && Legal(s, Move(o))
    ensures Moved(Apply(s, Move(o)), s.operations[o].artifact)
  {
    assert OperationOk(s, o);
  }

  /** However many prunes of a row overlap, and in whatever order they are recovered, its bytes are
      moved at most once. */
  lemma {:induction false} MovedAtMostOnce(s: State, ws: seq<Write>, r: nat)
    requires Inv(s) && LegalRun(s, ws)
    ensures MovesOf(s, ws, r) <= if Moved(s, r) then 0 else 1
    decreases |ws|
  {
    hide Inv;
    if ws != [] {
      var t := Apply(s, ws[0]);
      LegalWriteKeepsInv(s, ws[0]);
      MovedAtMostOnce(t, ws[1..], r);
      if Moved(s, r) {
        MovedStaysMoved(s, ws[0], r);
      } else if ws[0].Move? && s.operations[ws[0].o].artifact == r {
        MoveMoves(s, ws[0].o);
      }
    }
  }

  /** No write destroys a row, its bytes or an operation, or reopens a finished record. */
  ghost predicate Extends(s: State, t: State) {
    TablesExtend(s, t) && JournalExtends(s, t)
  }

  ghost predicate TablesExtend(s: State, t: State) {
    && (forall r | r in s.born :: r in t.born && t.born[r] == s.born[r])
    && (forall r | r in s.rows ::
          && r in t.rows && t.rows[r].body == s.rows[r].body && t.rows[r].task == s.rows[r].task
          && (s.rows[r].confirmed ==> t.rows[r].confirmed)
          && (s.rows[r].path.PruneQuarantine? ==> t.rows[r].path == s.rows[r].path))
  }

  ghost predicate JournalExtends(s: State, t: State) {
    && (forall o | o in s.operations :: o in t.operations && t.operations[o] == s.operations[o])
    && (forall o | o in s.journal :: o in t.journal && s.journal[o] <= t.journal[o])
    && s.retired <= t.retired && s.conflicts <= t.conflicts
    && (forall o | o in s.operations && o in t.active :: o in s.active)
  }

  lemma WriteExtendsTables(s: State, w: Write)
    requires Inv(s) && Legal(s, w)
    ensures TablesExtend(s, Apply(s, w))
  {
    if w.Repoint? {
      OriginalIsFinal(s, w.o);
      RepointExtendsTables(s, w.o);
    } else {
      OtherWriteExtendsTables(s, w);
    }
  }

  lemma OriginalIsFinal(s: State, o: nat)
    requires NamesOk(s) && OperationsOk(s) && o in s.operations
    ensures s.operations[o].original.Final?
  {
    assert OperationOk(s, o);
  }

  lemma RepointExtendsTables(s: State, o: nat)
    requires Legal(s, Repoint(o)) && s.operations[o].original.Final?
    ensures TablesExtend(s, Apply(s, Repoint(o)))
  {
  }

  lemma OtherWriteExtendsTables(s: State, w: Write)
    requires s.born.Keys == s.rows.Keys && Legal(s, w) && !w.Repoint?
    ensures TablesExtend(s, Apply(s, w))
  {
  }

  lemma JournalIsFiled(s: State)
    requires Inv(s)
    ensures NamesOk(s)
  {
  }

  lemma WriteExtendsJournal(s: State, w: Write)
    requires NamesOk(s) && Legal(s, w)
    ensures JournalExtends(s, Apply(s, w))
  {
    if w.Append? || w.CreateActive? {
      hide AppendLegal;
    } else if w.Move? || w.Repoint? || w.Retire? || w.Conflict? || w.Tear? {
      assert Apply(s, w).journal == s.journal && Apply(s, w).operations == s.operations;
    }
  }

  lemma ExtendsTransitive(s: State, t: State, u: State)
    requires Extends(s, t) && Extends(t, u)
    requires NamesOk(s)
    ensures Extends(s, u)
  {
  }

  lemma {:induction false} RunExtends(s: State, ws: seq<Write>)
    requires Inv(s) && LegalRun(s, ws)
    ensures Extends(s, Run(s, ws))
    decreases |ws|
  {
    hide Inv, NamesOk, TablesExtend, JournalExtends;
    if ws == [] {
      ExtendsItself(s);
    } else {
      JournalIsFiled(s);
      WriteExtendsTables(s, ws[0]);
      WriteExtendsJournal(s, ws[0]);
      LegalWriteKeepsInv(s, ws[0]);
      RunExtends(Apply(s, ws[0]), ws[1..]);
      ExtendsTransitive(s, Apply(s, ws[0]), Run(s, ws));
    }
  }

  lemma ExtendsItself(s: State)
    ensures Extends(s, s)
  {
  }
}
