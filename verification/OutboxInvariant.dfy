/** What every legal outbox write keeps, and the conservation of artifact bytes that follows. */
module OutboxInvariant {
  import opened OutboxState

  /** The stage events of an operation form a prefix of PREPARED, QUARANTINED, SQLITE_UPDATED, or
      stop before QUARANTINED with MANUAL_RECOVERY_REQUIRED. */
  predicate LogShape(log: seq<Stage>) {
    || log == []
    || log == [Prepared]
    || log == [Prepared, Quarantined]
    || log == [Prepared, Quarantined, SqliteUpdated]
    || log == [ManualRecoveryRequired]
    || log == [Prepared, ManualRecoveryRequired]
  }

  ghost predicate NamesOk(s: State) {
    && s.outbox.Keys <= s.used
    && s.journal.Keys == s.operations.Keys == s.active + s.retired + s.conflicts
    && s.active !! s.retired !! s.conflicts
    && s.damaged <= s.operations.Keys
    && s.born.Keys == s.rows.Keys
  }

  ghost predicate FilesOk(s: State) {
    forall m, n | m in s.outbox && n in s.outbox && m != n :: s.outbox[m].inode != s.outbox[n].inode
  }

  /** Operation o is unfinished and holds the bytes of row r away from the row's path. */
  ghost predicate HeldBy(s: State, r: nat, o: nat)
    requires r in s.rows
  {
    && o in s.active && o in s.operations
    && s.operations[o].artifact == r
    && s.operations[o].original == s.rows[r].path
    && s.operations[o].quarantine in s.outbox
  }

  ghost predicate RowOk(s: State, r: nat)
    requires r in s.rows && r in s.born
  {
    && var path := s.rows[r].path;
    && s.born[r].body == s.rows[r].body
    && path in s.used
    && (path.Final? || path.PruneQuarantine?)
    && (path in s.outbox ==> s.outbox[path] == s.born[r])
    && (path !in s.outbox ==> path.Final? && s.rows[r].confirmed && exists o :: HeldBy(s, r, o))
    && (path.PruneQuarantine? ==> exists o | o in s.operations :: s.operations[o].artifact == r && s.operations[o].quarantine == path)
  }

  ghost predicate RowsOk(s: State)
    requires s.born.Keys == s.rows.Keys
  {
    && (forall r | r in s.rows :: RowOk(s, r))
    && (forall q, r | q in s.rows && r in s.rows && q != r :: s.born[q].inode != s.born[r].inode)
  }

  ghost predicate OperationOk(s: State, o: nat)
    requires o in s.operations && o in s.journal && s.born.Keys == s.rows.Keys
  {
    var op, log := s.operations[o], s.journal[o];
    && LogShape(log)
    && op.original.Final? && op.quarantine.PruneQuarantine? && op.original in s.used && op.quarantine in s.used
    && op.artifact in s.rows
    && s.rows[op.artifact].confirmed
    && op.file == s.born[op.artifact]
    && (var path := s.rows[op.artifact].path;
        && (path.PruneQuarantine? || path == op.original)
        && (op.original in s.outbox ==> path == op.original)
        && (path == op.quarantine ==> |log| >= 2 && log[1] == Quarantined)
        && (SqliteUpdated in log ==> path == op.quarantine))
    && (Quarantined in log ==> op.quarantine in s.outbox)
    && (op.quarantine in s.outbox ==>
          s.outbox[op.quarantine] == op.file && op.original !in s.outbox && Prepared in log && ManualRecoveryRequired !in log)
    && (o in s.retired ==> log == [Prepared, Quarantined, SqliteUpdated])
    && (o in s.conflicts ==> ManualRecoveryRequired in log)
  }

  ghost predicate OperationsOk(s: State)
    requires s.journal.Keys == s.operations.Keys && s.born.Keys == s.rows.Keys
  {
    && (forall o | o in s.operations :: OperationOk(s, o))
    && (forall o, p | o in s.operations && p in s.operations && o != p :: s.operations[o].quarantine != s.operations[p].quarantine)
  }

  ghost predicate IntentOk(s: State, i: nat)
    requires i in s.intents
  {
    var intent := s.intents[i];
    && intent.temporary.Staging? && intent.final.Final?
    && intent.temporary in s.used && intent.final in s.used
    && (intent.temporary in s.outbox ==>
          s.outbox[intent.temporary].body == intent.body && intent.final !in s.outbox && intent.artifact !in s.rows)
    && (intent.final in s.outbox ==> s.outbox[intent.final].body == intent.body)
    && (intent.artifact in s.rows ==>
          var row := s.rows[intent.artifact];
          row.body == intent.body && row.task == intent.task && (row.path == intent.final || row.path.PruneQuarantine?))
    && (intent.artifact in s.rows && intent.final in s.outbox ==> s.rows[intent.artifact].path == intent.final)
  }

  ghost predicate IntentsOk(s: State) {
    && (forall i | i in s.intents :: IntentOk(s, i))
    && (forall i, j | i in s.intents && j in s.intents && i != j ::
          && s.intents[i].temporary != s.intents[j].temporary
          && s.intents[i].final != s.intents[j].final
          && s.intents[i].artifact != s.intents[j].artifact)
    && (forall i, r | i in s.intents && r in s.rows && s.rows[r].path == s.intents[i].final :: s.intents[i].artifact == r)
    && (forall i, o | i in s.intents && o in s.operations && s.operations[o].original == s.intents[i].final ::
          s.intents[i].artifact == s.operations[o].artifact)
  }

  ghost predicate Inv(s: State) {
    NamesOk(s) && FilesOk(s) && RowsOk(s) && OperationsOk(s) && IntentsOk(s)
  }

  lemma ActiveIsKnown(s: State, o: nat)
    requires Inv(s) && o in s.active
    ensures o in s.operations && o in s.journal && s.operations[o].artifact in s.rows && s.born.Keys == s.rows.Keys
    ensures s.operations[o].quarantine.PruneQuarantine?
  {
    assert OperationOk(s, o);
  }

  lemma InitialInv()
    ensures Inv(EMPTY)
  {
  }

  /* Frames: what a write must leave alone for one row, operation or intent to stay in order. */

  ghost predicate SameEntry(s: State, t: State, n: Name) {
    (n in t.outbox <==> n in s.outbox) && (n in s.outbox ==> t.outbox[n] == s.outbox[n])
  }

  ghost predicate SameOperations(s: State, t: State) {
    forall o | o in s.operations :: o in t.operations && t.operations[o] == s.operations[o]
  }

  lemma RowFrame(s: State, t: State, r: nat)
    requires r in s.rows && r in s.born && RowOk(s, r)
    requires r in t.rows && r in t.born && t.born[r] == s.born[r]
    requires t.rows[r].path == s.rows[r].path && t.rows[r].body == s.rows[r].body
    requires s.rows[r].confirmed ==> t.rows[r].confirmed
    requires s.used <= t.used && SameOperations(s, t) && SameEntry(s, t, s.rows[r].path)
    requires s.rows[r].path !in s.outbox ==> forall o | HeldBy(s, r, o) :: o in t.active && s.operations[o].quarantine in t.outbox
    ensures RowOk(t, r)
  {
    if s.rows[r].path !in s.outbox {
      var o :| HeldBy(s, r, o);
      assert HeldBy(t, r, o);
    }
    if s.rows[r].path.PruneQuarantine? {
      var o :| o in s.operations && s.operations[o].artifact == r && s.operations[o].quarantine == s.rows[r].path;
      assert o in t.operations && t.operations[o].artifact == r;
    }
  }

  lemma OperationFrame(s: State, t: State, o: nat)
    requires o in s.operations && o in s.journal && s.born.Keys == s.rows.Keys && OperationOk(s, o)
    requires o in t.operations && t.operations[o] == s.operations[o] && o in t.journal && t.journal[o] == s.journal[o]
    requires t.born.Keys == t.rows.Keys && s.operations[o].artifact in t.rows
    requires t.born[s.operations[o].artifact] == s.born[s.operations[o].artifact]
    requires t.rows[s.operations[o].artifact].path == s.rows[s.operations[o].artifact].path
    requires t.rows[s.operations[o].artifact].confirmed
    requires SameEntry(s, t, s.operations[o].original) && SameEntry(s, t, s.operations[o].quarantine)
    requires s.used <= t.used && (o in t.retired ==> o in s.retired) && (o in t.conflicts ==> o in s.conflicts)
    ensures OperationOk(t, o)
  {
  }

  lemma IntentFrame(s: State, t: State, i: nat)
    requires i in s.intents && IntentOk(s, i)
    requires i in t.intents && t.intents[i] == s.intents[i] && s.used <= t.used
    requires SameEntry(s, t, s.intents[i].temporary) && SameEntry(s, t, s.intents[i].final)
    requires s.intents[i].artifact in t.rows <==> s.intents[i].artifact in s.rows
    requires s.intents[i].artifact in s.rows ==>
               && t.rows[s.intents[i].artifact].path == s.rows[s.intents[i].artifact].path
               && t.rows[s.intents[i].artifact].body == s.rows[s.intents[i].artifact].body
               && t.rows[s.intents[i].artifact].task == s.rows[s.intents[i].artifact].task
    ensures IntentOk(t, i)
  {
  }

  /** No write to the outbox or the tables, for a row whose bytes are where they should be. */
  lemma AllRowsFrame(s: State, t: State)
    requires NamesOk(s) && RowsOk(s)
    requires t.rows == s.rows && t.born == s.born && s.used <= t.used && SameOperations(s, t)
    requires forall n: Name | n.Final? || n.PruneQuarantine? :: SameEntry(s, t, n)
    requires forall r, o | r in s.rows && HeldBy(s, r, o) :: o in t.active && s.operations[o].quarantine in t.outbox
    ensures RowsOk(t)
  {
    forall r | r in t.rows ensures RowOk(t, r) {
      RowFrame(s, t, r);
    }
  }

  lemma AllOperationsFrame(s: State, t: State)
    requires NamesOk(s) && OperationsOk(s)
    requires t.rows == s.rows && t.born == s.born && s.used <= t.used
    requires t.operations == s.operations && t.journal == s.journal && t.retired == s.retired && t.conflicts == s.conflicts
    requires forall n: Name | n.Final? || n.PruneQuarantine? :: SameEntry(s, t, n)
    ensures OperationsOk(t)
  {
    forall o | o in t.operations ensures OperationOk(t, o) {
      OperationFrame(s, t, o);
    }
  }

  ghost predicate SameRows(s: State, t: State) {
    && t.rows.Keys == s.rows.Keys
    && forall r | r in s.rows ::
         && t.rows[r].path == s.rows[r].path && t.rows[r].body == s.rows[r].body && t.rows[r].task == s.rows[r].task
         && (s.rows[r].confirmed ==> t.rows[r].confirmed)
  }

  lemma AllIntentsFrame(s: State, t: State)
    requires IntentsOk(s) && t.intents == s.intents && s.used <= t.used && SameRows(s, t)
    requires forall n: Name | n.Staging? || n.Final? :: SameEntry(s, t, n)
    requires forall o | o in t.operations ::
               || (o in s.operations && t.operations[o] == s.operations[o])
               || (t.operations[o].artifact in s.rows && s.rows[t.operations[o].artifact].path == t.operations[o].original)
    ensures IntentsOk(t)
  {
    forall i | i in t.intents ensures IntentOk(t, i) {
      IntentFrame(s, t, i);
    }
  }

  lemma HeldUnderQuarantine(s: State, r: nat, o: nat)
    requires NamesOk(s) && OperationsOk(s) && r in s.rows && HeldBy(s, r, o)
    ensures s.operations[o].quarantine.PruneQuarantine? && s.outbox[s.operations[o].quarantine] == s.operations[o].file == s.born[r]
    ensures s.journal[o] == [Prepared] || s.journal[o] == [Prepared, Quarantined] || s.journal[o] == [Prepared, Quarantined, SqliteUpdated]
  {
    assert OperationOk(s, o);
  }

  /* Each write keeps the invariant. */

  lemma KeepWriteTemporary(s: State, name: Name, file: File)
    requires Inv(s) && Legal(s, WriteTemporary(name, file))
    ensures Inv(Apply(s, WriteTemporary(name, file)))
  {
    hide RowsOk, OperationsOk;
    var t := Apply(s, WriteTemporary(name, file));
    forall r, o | r in s.rows && HeldBy(s, r, o) ensures s.operations[o].quarantine in t.outbox {
      HeldUnderQuarantine(s, r, o);
    }
    AllRowsFrame(s, t);
    AllOperationsFrame(s, t);
    forall i | i in t.intents ensures IntentOk(t, i) {
      assert IntentOk(s, i);
      IntentFrame(s, t, i);
    }
  }

  lemma KeepSetAside(s: State, name: Name, aside: Name)
    requires Inv(s) && Legal(s, SetAsideFile(name, aside))
    ensures Inv(Apply(s, SetAsideFile(name, aside)))
  {
    hide RowsOk, OperationsOk;
    var t := Apply(s, SetAsideFile(name, aside));
    forall r, o | r in s.rows && HeldBy(s, r, o) ensures s.operations[o].quarantine in t.outbox {
      HeldUnderQuarantine(s, r, o);
    }
    AllRowsFrame(s, t);
    AllOperationsFrame(s, t);
    forall i | i in t.intents ensures IntentOk(t, i) {
      assert IntentOk(s, i);
    }
  }

  lemma KeepIntentRemoval(s: State, t: State, i: nat)
    requires Inv(s) && i in s.intents
    requires t == s.(intents := s.intents - {i}, strays := t.strays)
    ensures Inv(t)
  {
    hide RowsOk, OperationsOk, IntentOk;
    AllRowsFrame(s, t);
    AllOperationsFrame(s, t);
    forall j | j in t.intents ensures IntentOk(t, j) {
      IntentFrame(s, t, j);
    }
  }

  lemma FreshName(s: State, n: Name)
    requires Inv(s) && n !in s.used
    ensures n !in s.outbox
    ensures forall r | r in s.rows :: s.rows[r].path != n
    ensures forall o | o in s.operations :: s.operations[o].original != n && s.operations[o].quarantine != n
    ensures forall i | i in s.intents :: s.intents[i].temporary != n && s.intents[i].final != n
  {
    forall r | r in s.rows ensures s.rows[r].path != n {
      assert RowOk(s, r);
    }
    forall o | o in s.operations ensures s.operations[o].original != n && s.operations[o].quarantine != n {
      assert OperationOk(s, o);
    }
    forall i | i in s.intents ensures s.intents[i].temporary != n && s.intents[i].final != n {
      assert IntentOk(s, i);
    }
  }

  lemma WriteIntentIntents(s: State, i: nat, intent: Intent)
    requires Inv(s) && Legal(s, WriteIntent(i, intent))
    ensures IntentsOk(Apply(s, WriteIntent(i, intent)))
  {
    hide RowsOk, OperationsOk;
    var t := Apply(s, WriteIntent(i, intent));
    FreshName(s, intent.final);
    forall j | j in t.intents ensures IntentOk(t, j) {
      if j != i {
        IntentFrame(s, t, j);
      }
    }
  }

  lemma KeepWriteIntent(s: State, i: nat, intent: Intent)
    requires Inv(s) && Legal(s, WriteIntent(i, intent))
    ensures Inv(Apply(s, WriteIntent(i, intent)))
  {
    hide RowsOk, OperationsOk, IntentsOk;
    var t := Apply(s, WriteIntent(i, intent));
    WriteIntentIntents(s, i, intent);
    AllRowsFrame(s, t);
    AllOperationsFrame(s, t);
  }

  lemma PublishRows(s: State, i: nat)
    requires Inv(s) && Legal(s, Publish(i))
    ensures RowsOk(Apply(s, Publish(i)))
  {
    hide OperationsOk;
    var t := Apply(s, Publish(i));
    assert IntentOk(s, i);
    forall r | r in t.rows ensures RowOk(t, r) {
      assert RowOk(s, r);
      forall o | HeldBy(s, r, o) ensures s.operations[o].quarantine in t.outbox {
        HeldUnderQuarantine(s, r, o);
      }
      RowFrame(s, t, r);
    }
  }

  lemma PublishOperations(s: State, i: nat)
    requires Inv(s) && Legal(s, Publish(i))
    ensures OperationsOk(Apply(s, Publish(i)))
  {
    hide RowsOk;
    var t := Apply(s, Publish(i));
    assert IntentOk(s, i);
    forall o | o in t.operations ensures OperationOk(t, o) {
      assert OperationOk(s, o);
      OperationFrame(s, t, o);
    }
  }

  lemma PublishIntents(s: State, i: nat)
    requires Inv(s) && Legal(s, Publish(i))
    ensures IntentsOk(Apply(s, Publish(i)))
  {
    hide RowsOk, OperationsOk;
    var t := Apply(s, Publish(i));
    assert IntentOk(s, i);
    forall j | j in t.intents ensures IntentOk(t, j) {
      assert IntentOk(s, j);
      if j != i {
        IntentFrame(s, t, j);
      }
    }
  }

  lemma KeepPublish(s: State, i: nat)
    requires Inv(s) && Legal(s, Publish(i))
    ensures Inv(Apply(s, Publish(i)))
  {
    hide RowsOk, OperationsOk;
    PublishRows(s, i);
    PublishOperations(s, i);
    PublishIntents(s, i);
    assert IntentOk(s, i);
  }

  /** Every row's bytes are under the row's path, or under the planned name of an unfinished prune. */
  lemma RowLocation(s: State, r: nat) returns (n: Name)
    requires Inv(s) && r in s.rows
    ensures n in s.outbox && s.outbox[n] == s.born[r]
    ensures n == s.rows[r].path || exists o :: HeldBy(s, r, o) && n == s.operations[o].quarantine
    ensures n == s.rows[r].path || n.PruneQuarantine?
  {
    assert RowOk(s, r);
    if s.rows[r].path in s.outbox {
      n := s.rows[r].path;
    } else {
      var o :| HeldBy(s, r, o);
      HeldUnderQuarantine(s, r, o);
      n := s.operations[o].quarantine;
    }
  }

  lemma InsertRowRows(s: State, i: nat, stamp: nat)
    requires Inv(s) && Legal(s, InsertRow(i, stamp))
    ensures RowsOk(Apply(s, InsertRow(i, stamp)))
  {
    hide OperationsOk;
    var t := Apply(s, InsertRow(i, stamp));
    var intent := s.intents[i];
    assert IntentOk(s, i);
    forall r | r in t.rows ensures RowOk(t, r) {
      if r != intent.artifact {
        RowFrame(s, t, r);
      }
    }
    forall r | r in s.rows ensures s.born[r].inode != s.outbox[intent.final].inode {
      var n := RowLocation(s, r);
    }
  }

  lemma InsertRowOperations(s: State, i: nat, stamp: nat)
    requires Inv(s) && Legal(s, InsertRow(i, stamp))
    ensures OperationsOk(Apply(s, InsertRow(i, stamp)))
  {
    hide RowsOk, IntentsOk;
    var t := Apply(s, InsertRow(i, stamp));
    forall o | o in t.operations ensures OperationOk(t, o) {
      assert OperationOk(s, o);
      OperationFrame(s, t, o);
    }
  }

  lemma InsertRowIntents(s: State, i: nat, stamp: nat)
    requires Inv(s) && Legal(s, InsertRow(i, stamp))
    ensures IntentsOk(Apply(s, InsertRow(i, stamp)))
  {
    hide OperationsOk;
    var t := Apply(s, InsertRow(i, stamp));
    assert IntentOk(s, i);
    forall j | j in t.intents ensures IntentOk(t, j) {
      if j != i {
        IntentFrame(s, t, j);
      }
    }
  }

  lemma KeepInsertRow(s: State, i: nat, stamp: nat)
    requires Inv(s) && Legal(s, InsertRow(i, stamp))
    ensures Inv(Apply(s, InsertRow(i, stamp)))
  {
    hide RowsOk, OperationsOk, IntentsOk;
    InsertRowRows(s, i, stamp);
    InsertRowOperations(s, i, stamp);
    InsertRowIntents(s, i, stamp);
  }

  lemma ConfirmUploadRows(s: State, r: nat, stamp: nat)
    requires Inv(s) && Legal(s, ConfirmUpload(r, stamp))
    ensures RowsOk(Apply(s, ConfirmUpload(r, stamp)))
  {
    hide OperationsOk, IntentsOk, RowOk;
    var t := Apply(s, ConfirmUpload(r, stamp));
    forall q | q in t.rows ensures RowOk(t, q) {
      RowFrame(s, t, q);
    }
  }

  lemma ConfirmUploadOperations(s: State, r: nat, stamp: nat)
    requires Inv(s) && Legal(s, ConfirmUpload(r, stamp))
    ensures OperationsOk(Apply(s, ConfirmUpload(r, stamp)))
  {
    hide RowsOk, IntentsOk;
    var t := Apply(s, ConfirmUpload(r, stamp));
    forall o | o in t.operations ensures OperationOk(t, o) {
      assert OperationOk(s, o);
      OperationFrame(s, t, o);
    }
  }

  lemma KeepConfirmUpload(s: State, r: nat, stamp: nat)
    requires Inv(s) && Legal(s, ConfirmUpload(r, stamp))
    ensures Inv(Apply(s, ConfirmUpload(r, stamp)))
  {
    hide RowsOk, OperationsOk;
    ConfirmUploadRows(s, r, stamp);
    ConfirmUploadOperations(s, r, stamp);
    AllIntentsFrame(s, Apply(s, ConfirmUpload(r, stamp)));
  }

  lemma CreateActiveOperations(s: State, o: nat, op: Operation)
    requires Inv(s) && Legal(s, CreateActive(o, op))
    ensures OperationsOk(Apply(s, CreateActive(o, op)))
  {
    hide RowOk, OperationOk, IntentsOk, FilesOk;
    FreshName(s, op.quarantine);
    CreatedOperationOk(s, o, op);
    OtherOperationsOk(s, o, op);
    QuarantinesStayApart(s, o, op);
    hide RowsOk, Legal;
  }

  lemma QuarantinesStayApart(s: State, o: nat, op: Operation)
    requires NamesOk(s) && OperationsOk(s) && Legal(s, CreateActive(o, op))
    requires forall p | p in s.operations :: s.operations[p].quarantine != op.quarantine
    ensures var t := Apply(s, CreateActive(o, op));
            forall p, q | p in t.operations && q in t.operations && p != q :: t.operations[p].quarantine != t.operations[q].quarantine
  {
    hide OperationOk;
  }

  lemma OtherOperationsOk(s: State, o: nat, op: Operation)
    requires NamesOk(s) && OperationsOk(s) && Legal(s, CreateActive(o, op))
    ensures forall p | p in s.operations :: OperationOk(Apply(s, CreateActive(o, op)), p)
  {
    var t := Apply(s, CreateActive(o, op));
    forall p | p in s.operations ensures OperationOk(t, p) {
      OperationFrame(s, t, p);
    }
  }

  lemma CreatedOperationOk(s: State, o: nat, op: Operation)
    requires NamesOk(s) && op.artifact in s.rows && RowOk(s, op.artifact) && Legal(s, CreateActive(o, op))
    ensures OperationOk(Apply(s, CreateActive(o, op)), o)
  {
  }

  lemma CreateActiveRows(s: State, o: nat, op: Operation)
    requires Inv(s) && Legal(s, CreateActive(o, op))
    ensures RowsOk(Apply(s, CreateActive(o, op)))
  {
    hide OperationsOk, IntentsOk, RowsOk;
    AllRowsFrame(s, Apply(s, CreateActive(o, op)));
  }

  lemma CreateActiveIntents(s: State, o: nat, op: Operation)
    requires Inv(s) && Legal(s, CreateActive(o, op))
    ensures IntentsOk(Apply(s, CreateActive(o, op)))
  {
    hide RowsOk, OperationsOk, IntentsOk;
    AllIntentsFrame(s, Apply(s, CreateActive(o, op)));
  }

  lemma CreateActiveNames(s: State, o: nat, op: Operation)
    requires NamesOk(s) && FilesOk(s) && Legal(s, CreateActive(o, op))
    ensures NamesOk(Apply(s, CreateActive(o, op))) && FilesOk(Apply(s, CreateActive(o, op)))
  {
  }

  lemma KeepCreateActive(s: State, o: nat, op: Operation)
    requires Inv(s) && Legal(s, CreateActive(o, op))
    ensures Inv(Apply(s, CreateActive(o, op)))
  {
    hide RowsOk, OperationsOk, IntentsOk;
    CreateActiveNames(s, o, op);
    CreateActiveOperations(s, o, op);
    CreateActiveRows(s, o, op);
    CreateActiveIntents(s, o, op);
  }

  /** t differs from s only in the journal and the directory of operation o. */
  ghost predicate JournalChange(s: State, t: State, o: nat) {
    && t.outbox == s.outbox && t.rows == s.rows && t.born == s.born && t.intents == s.intents
    && t.operations == s.operations && t.used == s.used && o in s.operations
    && (forall p | p in s.journal && p != o :: p in t.journal && t.journal[p] == s.journal[p])
    && (forall p | p != o :: (p in t.active <==> p in s.active) && (p in t.retired <==> p in s.retired) && (p in t.conflicts <==> p in s.conflicts))
  }

  /** Writes to the prune journal and its directories move no bytes and change no row. */
  lemma KeepJournalChange(s: State, t: State, o: nat)
    requires Inv(s) && JournalChange(s, t, o) && NamesOk(t) && OperationOk(t, o)
    requires forall r | r in s.rows && HeldBy(s, r, o) :: o in t.active
    ensures Inv(t)
  {
    JournalRows(s, t, o);
    JournalOperations(s, t, o);
    JournalIntents(s, t, o);
  }

  lemma JournalRows(s: State, t: State, o: nat)
    requires NamesOk(s) && RowsOk(s) && JournalChange(s, t, o)
    requires forall r | r in s.rows && HeldBy(s, r, o) :: o in t.active
    ensures RowsOk(t)
  {
    AllRowsFrame(s, t);
  }

  lemma JournalIntents(s: State, t: State, o: nat)
    requires IntentsOk(s) && JournalChange(s, t, o)
    ensures IntentsOk(t)
  {
    AllIntentsFrame(s, t);
  }

  lemma JournalOperations(s: State, t: State, o: nat)
    requires NamesOk(s) && OperationsOk(s) && JournalChange(s, t, o) && NamesOk(t) && OperationOk(t, o)
    ensures OperationsOk(t)
  {
    forall p | p in t.operations ensures OperationOk(t, p) {
      if p != o {
        OperationFrame(s, t, p);
      }
    }
  }

  lemma AppendOperation(s: State, o: nat, stage: Stage)
    requires NamesOk(s) && OperationOk'(s, o) && Legal(s, Append(o, stage))
    ensures OperationOk'(Apply(s, Append(o, stage)), o)
  {
  }

  lemma FileOperation(s: State, w: Write)
    requires NamesOk(s) && (w.Tear? || w.Retire? || w.Conflict?) && OperationOk'(s, w.o) && Legal(s, w)
    ensures OperationOk'(Apply(s, w), w.o)
  {
  }

  ghost predicate OperationOk'(s: State, o: nat) {
    o in s.operations && o in s.journal && s.born.Keys == s.rows.Keys && OperationOk(s, o)
  }

  lemma KeepAppend(s: State, o: nat, stage: Stage)
    requires Inv(s) && Legal(s, Append(o, stage))
    ensures Inv(Apply(s, Append(o, stage)))
  {
    hide RowsOk, IntentsOk, OperationOk;
    assert OperationOk'(s, o);
    AppendOperation(s, o, stage);
    KeepJournalChange(s, Apply(s, Append(o, stage)), o);
  }

  lemma RetiredHoldsNothing(s: State, r: nat, o: nat)
    requires NamesOk(s) && OperationsOk(s) && r in s.rows && HeldBy(s, r, o)
    ensures SqliteUpdated !in s.journal[o] && ManualRecoveryRequired !in s.journal[o]
  {
    assert OperationOk(s, o);
  }

  lemma FilingNames(s: State, w: Write)
    requires NamesOk(s) && (w.Tear? || w.Retire? || w.Conflict?) && OperationOk'(s, w.o) && Legal(s, w)
    ensures NamesOk(Apply(s, w)) && JournalChange(s, Apply(s, w), w.o)
    ensures SqliteUpdated in s.journal[w.o] || ManualRecoveryRequired in s.journal[w.o] || w.o in Apply(s, w).active
  {
  }

  lemma KeepFiling(s: State, w: Write)
    requires Inv(s) && (w.Tear? || w.Retire? || w.Conflict?) && Legal(s, w)
    ensures Inv(Apply(s, w))
  {
    hide RowsOk, IntentsOk;
    assert OperationOk'(s, w.o);
    FileOperation(s, w);
    FilingNames(s, w);
    forall r | r in s.rows && HeldBy(s, r, w.o) ensures w.o in Apply(s, w).active {
      HeldUnderQuarantine(s, r, w.o);
      RetiredHoldsNothing(s, r, w.o);
    }
    KeepJournalChange(s, Apply(s, w), w.o);
  }

  lemma MoveRows(s: State, o: nat)
    requires Inv(s) && Legal(s, Move(o))
    ensures RowsOk(Apply(s, Move(o)))
  {
    hide IntentsOk, FilesOk, RowOk, OperationOk, HeldBy;
    var t := Apply(s, Move(o));
    forall r | r in t.rows ensures RowOk(t, r) {
      MoveRow(s, o, r);
    }
  }

  lemma MoveRow(s: State, o: nat, r: nat)
    requires NamesOk(s) && RowsOk(s) && OperationsOk(s) && Legal(s, Move(o)) && r in s.rows
    ensures RowOk(Apply(s, Move(o)), r)
  {
    if r == s.operations[o].artifact {
      MoveOwnRow(s, o);
    } else {
      MoveOtherRow(s, o, r);
    }
  }

  lemma MoveOwnRow(s: State, o: nat)
    requires NamesOk(s) && RowsOk(s) && OperationsOk(s) && Legal(s, Move(o)) && s.operations[o].artifact in s.rows
    ensures RowOk(Apply(s, Move(o)), s.operations[o].artifact)
  {
    var t, r := Apply(s, Move(o)), s.operations[o].artifact;
    assert OperationOk(s, o) && RowOk(s, r);
    hide RowsOk, OperationsOk;
    assert HeldBy(t, r, o);
  }

  lemma MoveOtherRow(s: State, o: nat, r: nat)
    requires NamesOk(s) && RowsOk(s) && OperationsOk(s) && Legal(s, Move(o)) && r in s.rows && r != s.operations[o].artifact
    ensures RowOk(Apply(s, Move(o)), r)
  {
    var t, op := Apply(s, Move(o)), s.operations[o];
    MoveKeepsHeld(s, o, r);
    assert OperationOk(s, o) && RowOk(s, op.artifact) && RowOk(s, r);
    RowPathsDiffer(s, r, op.artifact);
    hide RowsOk, OperationsOk, HeldBy;
    RowFrame(s, t, r);
  }

  lemma MoveKeepsHeld(s: State, o: nat, r: nat)
    requires NamesOk(s) && RowsOk(s) && OperationsOk(s) && Legal(s, Move(o)) && r in s.rows && r != s.operations[o].artifact
    ensures forall p | HeldBy(s, r, p) :: p in Apply(s, Move(o)).active && s.operations[p].quarantine in Apply(s, Move(o)).outbox
  {
    assert OperationOk(s, o);
    forall p | HeldBy(s, r, p) ensures s.operations[p].quarantine in Apply(s, Move(o)).outbox {
      HeldUnderQuarantine(s, r, p);
    }
  }

  lemma RowPathsDiffer(s: State, q: nat, r: nat)
    requires NamesOk(s) && RowsOk(s) && q in s.rows && r in s.rows && q != r && s.rows[r].path in s.outbox
    ensures s.rows[q].path != s.rows[r].path
  {
    assert RowOk(s, q) && RowOk(s, r);
  }

  lemma MoveOperations(s: State, o: nat)
    requires Inv(s) && Legal(s, Move(o))
    ensures OperationsOk(Apply(s, Move(o)))
  {
    hide IntentsOk, FilesOk, RowOk;
    var t, op := Apply(s, Move(o)), s.operations[o];
    forall p | p in t.operations ensures OperationOk(t, p) {
      assert OperationOk(s, o) && OperationOk(s, p);
      hide OperationOk;
      if p == o {
        MovedOperation(s, t, o);
      } else if s.operations[p].artifact == op.artifact {
        RivalOperation(s, t, o, p);
      } else {
        OriginalsDiffer(s, o, p);
        UnrelatedOperation(s, t, o, p);
      }
    }
    hide OperationOk, RowsOk;
  }

  ghost predicate Pair(s: State, o: nat, p: nat) {
    && o in s.operations && o in s.journal && p in s.operations && p in s.journal && s.born.Keys == s.rows.Keys
    && OperationOk(s, o) && OperationOk(s, p) && s.operations[o].original in s.outbox
  }

  lemma MovedOperation(s: State, t: State, o: nat)
    requires Pair(s, o, o) && s.journal[o] == [Prepared] && s.outbox[s.operations[o].original] == s.operations[o].file
    requires t == s.(outbox := Rename(s.outbox, s.operations[o].original, s.operations[o].quarantine))
    ensures OperationOk(t, o)
  {
  }

  lemma RivalOperation(s: State, t: State, o: nat, p: nat)
    requires Pair(s, o, p) && s.operations[p].artifact == s.operations[o].artifact && s.operations[p].quarantine != s.operations[o].quarantine
    requires t == s.(outbox := Rename(s.outbox, s.operations[o].original, s.operations[o].quarantine))
    ensures OperationOk(t, p)
  {
  }

  lemma OriginalsDiffer(s: State, o: nat, p: nat)
    requires NamesOk(s) && RowsOk(s) && Pair(s, o, p) && s.operations[p].artifact != s.operations[o].artifact
    ensures s.operations[p].original != s.operations[o].original
  {
    hide RowsOk;
    if s.operations[p].original == s.operations[o].original {
      RowPathsDiffer(s, s.operations[p].artifact, s.operations[o].artifact);
    }
  }

  lemma UnrelatedOperation(s: State, t: State, o: nat, p: nat)
    requires Pair(s, o, p) && s.operations[p].original != s.operations[o].original && s.operations[p].quarantine != s.operations[o].quarantine
    requires t == s.(outbox := Rename(s.outbox, s.operations[o].original, s.operations[o].quarantine))
    ensures OperationOk(t, p)
  {
    assert s.operations[p].original.Final? && s.operations[p].quarantine.PruneQuarantine?;
    assert s.operations[o].original.Final? && s.operations[o].quarantine.PruneQuarantine?;
    OperationFrame(s, t, p);
  }

  lemma MoveIntents(s: State, o: nat)
    requires Inv(s) && Legal(s, Move(o))
    ensures IntentsOk(Apply(s, Move(o)))
  {
    hide RowsOk;
    var t := Apply(s, Move(o));
    var op := s.operations[o];
    assert OperationOk(s, o);
    forall j | j in t.intents ensures IntentOk(t, j) {
      assert IntentOk(s, j);
      if s.intents[j].final != op.original {
        IntentFrame(s, t, j);
      }
    }
  }

  lemma KeepMove(s: State, o: nat)
    requires Inv(s) && Legal(s, Move(o))
    ensures Inv(Apply(s, Move(o)))
  {
    hide RowsOk, IntentsOk;
    assert OperationOk(s, o);
    MoveRows(s, o);
    MoveOperations(s, o);
    MoveIntents(s, o);
  }

  lemma RepointRows(s: State, o: nat)
    requires Inv(s) && Legal(s, Repoint(o))
    ensures RowsOk(Apply(s, Repoint(o)))
  {
    hide IntentsOk, FilesOk, RowOk, OperationOk, HeldBy;
    var t := Apply(s, Repoint(o));
    forall r | r in t.rows ensures RowOk(t, r) {
      RepointRow(s, o, r);
    }
  }

  lemma RepointRow(s: State, o: nat, r: nat)
    requires NamesOk(s) && RowsOk(s) && OperationsOk(s) && Legal(s, Repoint(o)) && r in s.rows
    ensures RowOk(Apply(s, Repoint(o)), r)
  {
    assert OperationOk(s, o) && RowOk(s, r);
    hide RowsOk, OperationsOk;
    if r != s.operations[o].artifact {
      RowFrame(s, Apply(s, Repoint(o)), r);
    }
  }

  lemma RepointOperations(s: State, o: nat)
    requires Inv(s) && Legal(s, Repoint(o))
    ensures OperationsOk(Apply(s, Repoint(o)))
  {
    hide IntentsOk, FilesOk, RowsOk;
    var t := Apply(s, Repoint(o));
    assert OperationOk(s, o);
    forall p | p in t.operations ensures OperationOk(t, p) {
      assert OperationOk(s, p);
      if s.operations[p].artifact != s.operations[o].artifact {
        OperationFrame(s, t, p);
      }
    }
  }

  lemma RepointIntents(s: State, o: nat)
    requires Inv(s) && Legal(s, Repoint(o))
    ensures IntentsOk(Apply(s, Repoint(o)))
  {
    hide RowsOk;
    var t := Apply(s, Repoint(o));
    assert OperationOk(s, o);
    forall j | j in t.intents ensures IntentOk(t, j) {
      assert IntentOk(s, j);
    }
  }

  lemma KeepRepoint(s: State, o: nat)
    requires Inv(s) && Legal(s, Repoint(o))
    ensures Inv(Apply(s, Repoint(o)))
  {
    hide RowsOk, OperationsOk, IntentsOk;
    RepointRows(s, o);
    RepointOperations(s, o);
    RepointIntents(s, o);
  }

  lemma LegalWriteKeepsInv(s: State, w: Write)
    requires Inv(s) && Legal(s, w)
    ensures Inv(Apply(s, w))
  {
    hide Inv;
    match w
    case WriteTemporary(name, file) => KeepWriteTemporary(s, name, file);
    case WriteIntent(i, intent) => KeepWriteIntent(s, i, intent);
    case Publish(i) => KeepPublish(s, i);
    case InsertRow(i, stamp) => KeepInsertRow(s, i, stamp);
    case DropIntent(i) => KeepIntentRemoval(s, Apply(s, w), i);
    case StrayIntent(i) => KeepIntentRemoval(s, Apply(s, w), i);
    case SetAsideFile(name, aside) => KeepSetAside(s, name, aside);
    case ConfirmUpload(r, stamp) => KeepConfirmUpload(s, r, stamp);
    case CreateActive(o, op) => KeepCreateActive(s, o, op);
    case Move(o) => KeepMove(s, o);
    case Repoint(o) => KeepRepoint(s, o);
    case Append(o, stage) => KeepAppend(s, o, stage);
    case _ => KeepFiling(s, w);
  }

  lemma {:induction false} RunKeepsInv(s: State, ws: seq<Write>)
    requires Inv(s) && LegalRun(s, ws)
    ensures Inv(Run(s, ws))
    decreases |ws|
  {
    if ws != [] {
      LegalWriteKeepsInv(s, ws[0]);
      RunKeepsInv(Apply(s, ws[0]), ws[1..]);
    }
  }
}
