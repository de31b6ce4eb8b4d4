/** What each call would write if nothing stopped it.  A crash, or an exception that unwinds the call,
    leaves a prefix of these writes behind. */
module OutboxPlans {
  import opened OutboxState

  /* Pruning (`_prune_confirmed_sync`) and its recovery (`_reconcile_prune_intents`). */

  /** A selected row is pruned when its file is there, is intact and is not already quarantined. */
  ghost predicate Prunable(s: State, r: nat) {
    && r in s.rows && s.rows[r].confirmed
    && s.rows[r].path.Final? && s.rows[r].path in s.outbox && s.outbox[s.rows[r].path].body == s.rows[r].body
  }

  function NewOperation(s: State, r: nat, quarantine: Name): (op: Operation)
    requires r in s.rows && s.rows[r].path in s.outbox
  {
    Operation(r, s.rows[r].path, quarantine, s.outbox[s.rows[r].path])
  }

  function PrunePlan(o: nat, op: Operation): (ws: seq<Write>)
  {
    [CreateActive(o, op), Append(o, Prepared), Move(o), Append(o, Quarantined), Repoint(o), Append(o, SqliteUpdated), Retire(o)]
  }

  function GiveUpPlan(log: seq<Stage>, o: nat): (ws: seq<Write>) {
    if ManualRecoveryRequired in log then [Conflict(o)] else [Append(o, ManualRecoveryRequired), Conflict(o)]
  }

  /** Recovery of one undamaged active record, branch by branch. */
  function RecoverPlan(s: State, o: nat): (ws: seq<Write>)
    requires o in s.operations && o in s.journal
  {
    var op, log := s.operations[o], s.journal[o];
    if Prepared !in log then GiveUpPlan(log, o)
    else if SqliteUpdated in log && Quarantined !in log then GiveUpPlan(log, o)
    else if ManualRecoveryRequired in log then GiveUpPlan(log, o)
    else if o in s.retired then GiveUpPlan(log, o)
    else if SqliteUpdated in log then [Retire(o)]
    else if op.artifact !in s.rows || !s.rows[op.artifact].confirmed || s.rows[op.artifact].body != op.file.body then
      GiveUpPlan(log, o)
    else if op.original in s.outbox && op.quarantine in s.outbox then GiveUpPlan(log, o)
    else if op.original !in s.outbox && op.quarantine !in s.outbox then GiveUpPlan(log, o)
    else if op.quarantine in s.outbox then
      if s.outbox[op.quarantine] != op.file then GiveUpPlan(log, o)
      else (if Quarantined in log then [] else [Append(o, Quarantined)]) + AssociatePlan(s, o)
    else if s.rows[op.artifact].path != op.original || s.outbox[op.original] != op.file then GiveUpPlan(log, o)
    else [Move(o), Append(o, Quarantined)] + AssociatePlan(s, o)
  }

  /** The SQLite half: point the row at the quarantine name unless it already does. */
  function AssociatePlan(s: State, o: nat): (ws: seq<Write>)
    requires o in s.operations && s.operations[o].artifact in s.rows
  {
    var op := s.operations[o];
    var path := s.rows[op.artifact].path;
    if path == op.original then [Repoint(o), Append(o, SqliteUpdated), Retire(o)]
    else if path == op.quarantine then [Append(o, SqliteUpdated), Retire(o)]
    else [Append(o, ManualRecoveryRequired), Conflict(o)]
  }

  /* Staging (`_stage_sync`) and its recovery (`_reconcile_intent`). */

  function StagePlan(i: nat, intent: Intent, file: File, stamp: nat): (ws: seq<Write>) {
    [WriteTemporary(intent.temporary, file), WriteIntent(i, intent), Publish(i), InsertRow(i, stamp), DropIntent(i)]
  }

  /** Where a cancellation or the deadline catches a stage, if it does. */
  datatype Checkpoint = Copying | Ready | BeginCommit | Never

  /** What one call of the staging worker writes. */
  function StageWrites(caught: Checkpoint, i: nat, intent: Intent, file: File, stamp: nat, aside: Name): (ws: seq<Write>) {
    match caught
    case Never => StagePlan(i, intent, file, stamp)
    case Copying => [WriteTemporary(intent.temporary, file)] + AbortPlan(i, intent, false, aside)
    case _ => [WriteTemporary(intent.temporary, file), WriteIntent(i, intent)] + AbortPlan(i, intent, true, aside)
  }

  /** What an aborted stage cleans up: the temporary, and the intent if it was written. */
  function AbortPlan(i: nat, intent: Intent, intentWritten: bool, aside: Name): (ws: seq<Write>) {
    [SetAsideFile(intent.temporary, aside)] + if intentWritten then [StrayIntent(i)] else []
  }

  /** Recovery of one intent.  None is the refusal of a version 2 intent without bytes. */
  function ReconcilePlan(s: State, i: nat, aside: Name, stamp: nat): (ws: seq<Write>)
    requires i in s.intents
  {
    var intent := s.intents[i];
    if intent.final in s.outbox then
      (if intent.artifact in s.rows then [] else [InsertRow(i, stamp)])
      + (if intent.temporary in s.outbox then [SetAsideFile(intent.temporary, aside)] else [])
      + [DropIntent(i)]
    else if intent.temporary in s.outbox then
      if intent.authority then [Publish(i), InsertRow(i, stamp), DropIntent(i)]
      else [SetAsideFile(intent.temporary, aside), DropIntent(i)]
    else if intent.authority then []
    else [DropIntent(i)]
  }

  /** A version 2 intent whose bytes are under neither of its names is refused and stays. */
  predicate Refused(s: State, i: nat)
    requires i in s.intents
  {
    s.intents[i].authority && s.intents[i].final !in s.outbox && s.intents[i].temporary !in s.outbox
  }
}
