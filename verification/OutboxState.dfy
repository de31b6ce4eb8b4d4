/** The durable state of the desktop agent's artifact outbox, and the atomic writes that change it.

    A crash may fall between any two writes, never inside one.  Everything the agent does to the
    outbox - staging, upload confirmation, pruning and both recoveries - is a sequence of these
    writes, so what every legal write keeps holds after a crash at any point.
 */
module OutboxState {

  /** Outbox entry names, by the prefix the source gives them.  A token is never reused. */
  datatype Name =
    | Staging(token: nat)          // .staging-<token>
    | Final(token: nat)            // artifact-<token>.pcap[ng]
    | PruneQuarantine(token: nat)  // .artifact-prune-quarantine-<token>
    | SetAside(token: nat)         // the cleanup, orphan and reconcile quarantine prefixes

  /** What the size and SHA-256 checks observe of a file. */
  datatype Body = Body(size: nat, sha: nat)

  datatype File = File(inode: nat, body: Body)

  /** A row of pending_uploads.  artifact_id and upload_id are both unique keys of one row and are
      one key here; `stamp` is COALESCE(confirmed_at, next_attempt_at). */
  datatype Row = Row(path: Name, body: Body, task: nat, confirmed: bool, stamp: nat)

  /** A staging intent.  `authority` is the capture authority of a version 2 intent. */
  datatype Intent = Intent(temporary: Name, final: Name, artifact: nat, task: nat, execution: nat, body: Body, authority: bool)

  /** A prune operation, as its active record and every one of its stage events repeat it. */
  datatype Operation = Operation(artifact: nat, original: Name, quarantine: Name, file: File)

  datatype Stage = Prepared | Quarantined | SqliteUpdated | ManualRecoveryRequired

  /** `operations` is the content of the prune records; `active`, `retired` and `conflicts` are the
      directories a record can be in.  `journal` holds each operation's append-only stage events in
      the order they were written, `damaged` the operations with a torn record.  `strays` are intents
      that were renamed with a prefix the intent scan does not skip.  `used` (every name ever
      allocated) and `born` (the file a row was inserted for) are history that no code reads. */
  datatype State = State(
    outbox: map<Name, File>,
    intents: map<nat, Intent>,
    strays: set<nat>,
    rows: map<nat, Row>,
    operations: map<nat, Operation>,
    active: set<nat>,
    retired: set<nat>,
    conflicts: set<nat>,
    journal: map<nat, seq<Stage>>,
    damaged: set<nat>,
    used: set<Name>,
    born: map<nat, File>)

  const EMPTY: State := State(map[], map[], {}, map[], map[], {}, {}, {}, map[], {}, {}, map[])

  datatype Write =
    | WriteTemporary(name: Name, file: File)       // copy bytes into a private staging name
    | WriteIntent(i: nat, intent: Intent)
    | Publish(i: nat)                              // rename the temporary to the final name
    | InsertRow(i: nat, stamp: nat)
    | DropIntent(i: nat)
    | StrayIntent(i: nat)                          // abort renames the intent with the cleanup prefix
    | SetAsideFile(name: Name, aside: Name)
    | ConfirmUpload(r: nat, stamp: nat)
    | CreateActive(o: nat, operation: Operation)
    | Tear(o: nat)                                 // a torn prune record survives a crash
    | Append(o: nat, stage: Stage)
    | Move(o: nat)                                 // rename the original to the planned quarantine name
    | Repoint(o: nat)                              // compare-and-set the row's path
    | Retire(o: nat)
    | Conflict(o: nat)

  function Rename(outbox: map<Name, File>, source: Name, target: Name): (moved: map<Name, File>)
    requires source in outbox
  {
    (outbox - {source})[target := outbox[source]]
  }

  /** When a write may happen.  These are the facts the code has established when it gets there;
      names and identifiers drawn at random are fresh. */
  ghost predicate Legal(s: State, w: Write) {
    match w
    case WriteTemporary(name, file) =>
      && name.Staging?
      && (if name in s.outbox
          then s.outbox[name].inode == file.inode && forall i | i in s.intents :: s.intents[i].temporary != name
          else name !in s.used && forall n | n in s.outbox :: s.outbox[n].inode != file.inode)
      && forall r | r in s.born :: s.born[r].inode != file.inode
    case WriteIntent(i, intent) =>
      && i !in s.intents && i !in s.strays
      && intent.temporary.Staging? && intent.temporary in s.outbox
      && s.outbox[intent.temporary].body == intent.body
      && intent.final.Final? && intent.final !in s.used
      && intent.artifact !in s.rows
      && forall j | j in s.intents :: s.intents[j].temporary != intent.temporary && s.intents[j].artifact != intent.artifact
    case Publish(i) =>
      i in s.intents && s.intents[i].temporary in s.outbox && s.intents[i].final !in s.outbox
    case InsertRow(i, _) =>
      i in s.intents && s.intents[i].final in s.outbox && s.intents[i].artifact !in s.rows
    case DropIntent(i) => i in s.intents
    case StrayIntent(i) => i in s.intents
    case SetAsideFile(name, aside) =>
      name.Staging? && name in s.outbox && aside.SetAside? && aside !in s.used
    case ConfirmUpload(r, _) => r in s.rows
    case CreateActive(o, op) =>
      && o !in s.operations
      && op.artifact in s.rows && s.rows[op.artifact].confirmed
      && op.original == s.rows[op.artifact].path && op.original.Final? && op.original in s.outbox
      && op.file == s.outbox[op.original] && op.file.body == s.rows[op.artifact].body
      && op.quarantine.PruneQuarantine? && op.quarantine !in s.used
    case Tear(o) => o in s.active
    case Append(o, stage) =>
      o in s.active && o !in s.damaged && o in s.operations && o in s.journal && AppendLegal(s, o, stage)
    case Move(o) =>
      && o in s.active && o !in s.damaged && o in s.operations && o in s.journal
      && s.journal[o] == [Prepared]
      && s.operations[o].original in s.outbox && s.operations[o].quarantine !in s.outbox
      && s.outbox[s.operations[o].original] == s.operations[o].file
    case Repoint(o) =>
      && o in s.active && o !in s.damaged && o in s.operations && o in s.journal
      && s.journal[o] == [Prepared, Quarantined]
      && s.operations[o].artifact in s.rows && s.rows[s.operations[o].artifact].confirmed
      && s.rows[s.operations[o].artifact].path == s.operations[o].original
    case Retire(o) =>
      && o in s.active && o !in s.damaged && o !in s.retired && o in s.journal
      && s.journal[o] == [Prepared, Quarantined, SqliteUpdated]
    case Conflict(o) =>
      o in s.active && o !in s.damaged && o in s.journal && ManualRecoveryRequired in s.journal[o]
  }

  /** When a stage event may be appended to an undamaged active operation. */
  ghost predicate AppendLegal(s: State, o: nat, stage: Stage)
    requires o in s.operations && o in s.journal
  {
    var op, log := s.operations[o], s.journal[o];
    match stage
    case Prepared => log == []
    case Quarantined => log == [Prepared] && op.quarantine in s.outbox
    case SqliteUpdated =>
      log == [Prepared, Quarantined] && op.artifact in s.rows && s.rows[op.artifact].path == op.quarantine
    case ManualRecoveryRequired =>
      log == [] || (log == [Prepared] && op.original !in s.outbox && op.quarantine !in s.outbox)
  }

  function Apply(s: State, w: Write): (t: State)
    requires Legal(s, w)
  {
    match w
    case WriteTemporary(name, file) => s.(outbox := s.outbox[name := file], used := s.used + {name})
    case WriteIntent(i, intent) => s.(intents := s.intents[i := intent], used := s.used + {intent.final})
    case Publish(i) => s.(outbox := Rename(s.outbox, s.intents[i].temporary, s.intents[i].final))
    case InsertRow(i, stamp) =>
      var intent := s.intents[i];
      s.(rows := s.rows[intent.artifact := Row(intent.final, intent.body, intent.task, false, stamp)],
         born := s.born[intent.artifact := s.outbox[intent.final]])
    case DropIntent(i) => s.(intents := s.intents - {i})
    case StrayIntent(i) => s.(intents := s.intents - {i}, strays := s.strays + {i})
    case SetAsideFile(name, aside) => s.(outbox := Rename(s.outbox, name, aside), used := s.used + {aside})
    case ConfirmUpload(r, stamp) => s.(rows := s.rows[r := s.rows[r].(confirmed := true, stamp := stamp)])
    case CreateActive(o, op) =>
      s.(operations := s.operations[o := op], active := s.active + {o}, journal := s.journal[o := []],
         used := s.used + {op.quarantine})
    case Tear(o) => s.(damaged := s.damaged + {o})
    case Append(o, stage) => s.(journal := s.journal[o := s.journal[o] + [stage]])
    case Move(o) => s.(outbox := Rename(s.outbox, s.operations[o].original, s.operations[o].quarantine))
    case Repoint(o) =>
      var op := s.operations[o];
      s.(rows := s.rows[op.artifact := s.rows[op.artifact].(path := op.quarantine)])
    case Retire(o) => s.(active := s.active - {o}, retired := s.retired + {o})
    case Conflict(o) => s.(active := s.active - {o}, conflicts := s.conflicts + {o})
  }

  /* Runs: what a sequence of writes does, and that it can be cut anywhere. */

  ghost predicate LegalRun(s: State, ws: seq<Write>)
    decreases |ws|
  {
    ws != [] ==> Legal(s, ws[0]) && LegalRun(Apply(s, ws[0]), ws[1..])
  }

  function Run(s: State, ws: seq<Write>): (t: State)
    requires LegalRun(s, ws)
    decreases |ws|
  {
    if ws == [] then s else Run(Apply(s, ws[0]), ws[1..])
  }

  lemma {:induction false} RunAppend(s: State, a: seq<Write>, b: seq<Write>)
    requires LegalRun(s, a) && LegalRun(Run(s, a), b)
    ensures LegalRun(s, a + b) && Run(s, a + b) == Run(Run(s, a), b)
    decreases |a|
  {
    if a == [] {
      assert a + b == b;
    } else {
      RunAppend(Apply(s, a[0]), a[1..], b);
      assert (a + b)[1..] == a[1..] + b;
    }
  }

  lemma {:induction false} RunSplit(s: State, a: seq<Write>, b: seq<Write>)
    requires LegalRun(s, a + b)
    ensures LegalRun(s, a) && LegalRun(Run(s, a), b) && Run(s, a + b) == Run(Run(s, a), b)
    decreases |a|
  {
    if a == [] {
      assert a + b == b;
    } else {
      assert (a + b)[1..] == a[1..] + b;
      RunSplit(Apply(s, a[0]), a[1..], b);
    }
  }

  lemma RunOne(s: State, a: Write)
    requires Legal(s, a)
    ensures LegalRun(s, [a]) && Run(s, [a]) == Apply(s, a)
  {
    assert [a][1..] == [];
  }

  lemma RunTwo(s: State, a: Write, b: Write)
    requires Legal(s, a) && Legal(Apply(s, a), b)
    ensures LegalRun(s, [a, b]) && Run(s, [a, b]) == Apply(Apply(s, a), b)
  {
    assert [a, b][1..] == [b];
    RunOne(Apply(s, a), b);
  }

  lemma RunThree(s: State, a: Write, b: Write, c: Write)
    requires Legal(s, a) && Legal(Apply(s, a), b) && Legal(Apply(Apply(s, a), b), c)
    ensures LegalRun(s, [a, b, c]) && Run(s, [a, b, c]) == Apply(Apply(Apply(s, a), b), c)
  {
    assert [a, b, c][1..] == [b, c];
    RunTwo(Apply(s, a), b, c);
  }
}
