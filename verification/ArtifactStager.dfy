/** The agent's own calls, statement by statement: each test reads the fields, each durable write is
    one method, and every call is proved to write its plan up to wherever it is stopped. */
module ArtifactStager {
  import opened OutboxState
  import opened OutboxInvariant
  import opened OutboxPlans
  import opened OutboxSafety
  import opened PruneRecovery
  import opened PrunePass
  import opened PruneBatches
  import opened Retention
  import opened RetentionLaw
  import opened StagingRecovery
  import opened StagingPreflight

  /** The n-th write of a legal run is legal where the run has got to. */
  lemma NextWrite(s: State, plan: seq<Write>, k: nat)
    requires LegalRun(s, plan) && k < |plan|
    ensures LegalRun(s, plan[..k]) && Legal(Run(s, plan[..k]), plan[k])
    ensures LegalRun(s, plan[..k + 1]) && Run(s, plan[..k + 1]) == Apply(Run(s, plan[..k]), plan[k])
  {
    hide Legal, Apply;
    assert plan == plan[..k] + plan[k..];
    RunSplit(s, plan[..k], plan[k..]);
    var t := Run(s, plan[..k]);
    assert plan[k..][0] == plan[k];
    RunOne(t, plan[k]);
    RunAppend(s, plan[..k], [plan[k]]);
    assert plan[..k] + [plan[k]] == plan[..k + 1];
  }

  lemma TraceGrows(trace: seq<Write>, s: State, w: Write)
    requires LegalRun(EMPTY, trace) && Run(EMPTY, trace) == s && Legal(s, w)
    ensures LegalRun(EMPTY, trace + [w]) && Run(EMPTY, trace + [w]) == Apply(s, w)
  {
    hide Legal, Apply;
    RunOne(s, w);
    RunAppend(EMPTY, trace, [w]);
  }

  /** A part of a plan, run where the plan has got to. */
  lemma PartOfPlan(s: State, plan: seq<Write>, k: nat, part: seq<Write>, j: nat)
    requires LegalRun(s, plan) && k + |part| <= |plan| && plan[k..k + |part|] == part && j <= |part|
    ensures LegalRun(s, plan[..k]) && LegalRun(Run(s, plan[..k]), part[..j])
    ensures LegalRun(s, plan[..k + j]) && Run(s, plan[..k + j]) == Run(Run(s, plan[..k]), part[..j])
  {
    hide Legal, Apply;
    assert plan == plan[..k + j] + plan[k + j..];
    RunSplit(s, plan[..k + j], plan[k + j..]);
    assert plan[..k + j] == plan[..k] + part[..j];
    RunSplit(s, plan[..k], part[..j]);
  }

  lemma CreateActiveApplies(s: State, o: nat, op: Operation)
    requires Legal(s, CreateActive(o, op))
    ensures Apply(s, CreateActive(o, op)) ==
      s.(operations := s.operations[o := op], active := s.active + {o}, journal := s.journal[o := []],
         used := s.used + {op.quarantine})
  {
  }

  class Stager {
    var outbox: map<Name, File>
    var intents: map<nat, Intent>
    var strays: set<nat>
    var rows: map<nat, Row>
    var operations: map<nat, Operation>
    var active: set<nat>
    var retired: set<nat>
    var conflicts: set<nat>
    var journal: map<nat, seq<Stage>>
    var damaged: set<nat>
    /** How many more durable writes happen before the process dies or an exception unwinds the call. */
    var power: nat
    ghost var used: set<Name>
    ghost var born: map<nat, File>
    ghost var trace: seq<Write>

    ghost function Durable(): State
      reads this
    {
      State(outbox, intents, strays, rows, operations, active, retired, conflicts, journal, damaged, used, born)
    }

    ghost predicate Valid()
      reads this
    {
      LegalRun(EMPTY, trace) && Run(EMPTY, trace) == Durable()
    }

    /** k writes of the plan have been made since the call began in state s with that much power. */
    ghost predicate At(s: State, budget: nat, plan: seq<Write>, k: nat)
      reads this
    {
      && Valid() && LegalRun(s, plan) && k <= |plan|
      && LegalRun(s, plan[..k]) && Durable() == Run(s, plan[..k])
      && power + k == budget
    }

    /** The call wrote its whole plan, or as much of it as its power allowed. */
    ghost predicate Wrote(s: State, budget: nat, plan: seq<Write>, done: bool)
      reads this
    {
      if done then At(s, budget, plan, |plan|) else budget < |plan| && At(s, budget, plan, budget)
    }

    constructor (budget: nat)
      ensures Valid() && Durable() == EMPTY && power == budget
    {
      outbox, intents, strays, rows := map[], map[], {}, map[];
      operations, active, retired, conflicts, journal, damaged := map[], {}, {}, {}, map[], {};
      power := budget;
      used, born, trace := {}, map[], [];
    }

    /** The next call, or the restarted process, has power of its own. */
    method Resume(budget: nat)
      requires Valid()
      modifies `power
      ensures Valid() && Durable() == old(Durable()) && power == budget
    {
      power := budget;
    }

    lemma Invariant()
      requires Valid()
      ensures Reachable(Durable()) && Inv(Durable())
    {
      hide Legal, Apply, LegalRun, Run, Inv;
      assert Reachable(Durable());
      ReachableInv(Durable());
    }

    lemma Start(plan: seq<Write>)
      requires Valid() && LegalRun(Durable(), plan)
      ensures At(Durable(), power, plan, 0)
    {
      assert plan[..0] == [];
    }

    /* The durable writes. */

    /** One write took the state from s to t, unless no power was left for it. */
    ghost predicate Stepped(s: State, budget: nat, t: State, done: bool)
      reads this
    {
      && Valid()
      && if done then budget > 0 && power == budget - 1 && Durable() == t
         else budget == 0 && power == 0 && Durable() == s
    }

    method AppendEvent(o: nat, stage: Stage) returns (done: bool)
      requires Valid() && Legal(Durable(), Append(o, stage))
      modifies `journal, `power, `trace
      ensures Stepped(old(Durable()), old(power), Apply(old(Durable()), Append(o, stage)), done)
      ensures done ==> o in old(journal) && journal == old(journal)[o := old(journal)[o] + [stage]]
    {
      hide LegalRun, Run, AppendLegal;
      if power == 0 {
        return false;
      }
      TraceGrows(trace, Durable(), Append(o, stage));
      journal, power, trace := journal[o := journal[o] + [stage]], power - 1, trace + [Append(o, stage)];
      return true;
    }

    method CreateActiveRecord(o: nat, op: Operation) returns (done: bool)
      requires Valid() && Legal(Durable(), CreateActive(o, op))
      modifies `operations, `active, `journal, `used, `power, `trace
      ensures Stepped(old(Durable()), old(power), Apply(old(Durable()), CreateActive(o, op)), done)
    {
      hide LegalRun, Run, Legal, Apply;
      if power == 0 {
        return false;
      }
      ghost var s := Durable();
      TraceGrows(trace, s, CreateActive(o, op));
      CreateActiveApplies(s, o, op);
      operations := operations[o := op];
      active := active + {o};
      journal := journal[o := []];
      used := used + {op.quarantine};
      power := power - 1;
      trace := trace + [CreateActive(o, op)];
      return true;
    }

    /** rename-no-replace from the original name to the planned quarantine name. */
    method MoveToQuarantine(o: nat) returns (done: bool)
      requires Valid() && Legal(Durable(), Move(o))
      modifies `outbox, `power, `trace
      ensures Stepped(old(Durable()), old(power), Apply(old(Durable()), Move(o)), done)
    {
      hide LegalRun, Run, AppendLegal;
      if power == 0 {
        return false;
      }
      TraceGrows(trace, Durable(), Move(o));
      outbox, power, trace := Rename(outbox, operations[o].original, operations[o].quarantine), power - 1, trace + [Move(o)];
      return true;
    }

    /** UPDATE ... SET relative_path=? WHERE state='confirmed' AND relative_path=?, for a row it matches. */
    method UpdateRowPath(o: nat) returns (done: bool)
      requires Valid() && Legal(Durable(), Repoint(o))
      modifies `rows, `power, `trace
      ensures Stepped(old(Durable()), old(power), Apply(old(Durable()), Repoint(o)), done)
    {
      hide LegalRun, Run, AppendLegal;
      if power == 0 {
        return false;
      }
      TraceGrows(trace, Durable(), Repoint(o));
      var op := operations[o];
      rows, power, trace := rows[op.artifact := rows[op.artifact].(path := op.quarantine)], power - 1, trace + [Repoint(o)];
      return true;
    }

    method RetireActive(o: nat) returns (done: bool)
      requires Valid() && Legal(Durable(), Retire(o))
      modifies `active, `retired, `power, `trace
      ensures Stepped(old(Durable()), old(power), Apply(old(Durable()), Retire(o)), done)
    {
      hide LegalRun, Run, Legal;
      if power == 0 {
        return false;
      }
      TraceGrows(trace, Durable(), Retire(o));
      active, retired, power, trace := active - {o}, retired + {o}, power - 1, trace + [Retire(o)];
      return true;
    }

    method MoveToConflicts(o: nat) returns (done: bool)
      requires Valid() && Legal(Durable(), Conflict(o))
      modifies `active, `conflicts, `power, `trace
      ensures Stepped(old(Durable()), old(power), Apply(old(Durable()), Conflict(o)), done)
    {
      hide LegalRun, Run, Legal;
      if power == 0 {
        return false;
      }
      TraceGrows(trace, Durable(), Conflict(o));
      active, conflicts, power, trace := active - {o}, conflicts + {o}, power - 1, trace + [Conflict(o)];
      return true;
    }

    /** A crash while a prune record or event is being written can leave it torn. */
    method TearRecord(o: nat) returns (done: bool)
      requires Valid() && Legal(Durable(), Tear(o))
      modifies `damaged, `power, `trace
      ensures Stepped(old(Durable()), old(power), Apply(old(Durable()), Tear(o)), done)
    {
      hide LegalRun, Run, Legal;
      if power == 0 {
        return false;
      }
      TraceGrows(trace, Durable(), Tear(o));
      damaged, power, trace := damaged + {o}, power - 1, trace + [Tear(o)];
      return true;
    }

    method CopyTemporary(name: Name, file: File) returns (done: bool)
      requires Valid() && Legal(Durable(), WriteTemporary(name, file))
      modifies `outbox, `used, `power, `trace
      ensures Stepped(old(Durable()), old(power), Apply(old(Durable()), WriteTemporary(name, file)), done)
    {
      hide LegalRun, Run, Legal;
      if power == 0 {
        return false;
      }
      TraceGrows(trace, Durable(), WriteTemporary(name, file));
      outbox, power := outbox[name := file], power - 1;
      used, trace := used + {name}, trace + [WriteTemporary(name, file)];
      return true;
    }

    method RecordIntent(i: nat, intent: Intent) returns (done: bool)
      requires Valid() && Legal(Durable(), WriteIntent(i, intent))
      modifies `intents, `used, `power, `trace
      ensures Stepped(old(Durable()), old(power), Apply(old(Durable()), WriteIntent(i, intent)), done)
    {
      hide LegalRun, Run, Legal;
      if power == 0 {
        return false;
      }
      TraceGrows(trace, Durable(), WriteIntent(i, intent));
      intents, power := intents[i := intent], power - 1;
      used, trace := used + {intent.final}, trace + [WriteIntent(i, intent)];
      return true;
    }

    method PublishWithoutOverwrite(i: nat) returns (done: bool)
      requires Valid() && Legal(Durable(), Publish(i))
      modifies `outbox, `power, `trace
      ensures Stepped(old(Durable()), old(power), Apply(old(Durable()), Publish(i)), done)
    {
      hide LegalRun, Run, AppendLegal;
      if power == 0 {
        return false;
      }
      TraceGrows(trace, Durable(), Publish(i));
      outbox, power, trace := Rename(outbox, intents[i].temporary, intents[i].final), power - 1, trace + [Publish(i)];
      return true;
    }

    method InsertPendingRow(i: nat, stamp: nat) returns (done: bool)
      requires Valid() && Legal(Durable(), InsertRow(i, stamp))
      modifies `rows, `born, `power, `trace
      ensures Stepped(old(Durable()), old(power), Apply(old(Durable()), InsertRow(i, stamp)), done)
    {
      hide LegalRun, Run, AppendLegal;
      if power == 0 {
        return false;
      }
      TraceGrows(trace, Durable(), InsertRow(i, stamp));
      var intent := intents[i];
      rows, power := rows[intent.artifact := Row(intent.final, intent.body, intent.task, false, stamp)], power - 1;
      born, trace := born[intent.artifact := outbox[intent.final]], trace + [InsertRow(i, stamp)];
      return true;
    }

    method QuarantineIntent(i: nat) returns (done: bool)
      requires Valid() && Legal(Durable(), DropIntent(i))
      modifies `intents, `power, `trace
      ensures Stepped(old(Durable()), old(power), Apply(old(Durable()), DropIntent(i)), done)
    {
      hide LegalRun, Run, Legal;
      if power == 0 {
        return false;
      }
      TraceGrows(trace, Durable(), DropIntent(i));
      intents, power, trace := intents - {i}, power - 1, trace + [DropIntent(i)];
      return true;
    }

    /** What an aborted stage does to its intent: the cleanup prefix is one the scan does not skip. */
    method CleanUpIntent(i: nat) returns (done: bool)
      requires Valid() && Legal(Durable(), StrayIntent(i))
      modifies `intents, `strays, `power, `trace
      ensures Stepped(old(Durable()), old(power), Apply(old(Durable()), StrayIntent(i)), done)
    {
      hide LegalRun, Run, Legal;
      if power == 0 {
        return false;
      }
      TraceGrows(trace, Durable(), StrayIntent(i));
      intents, strays, power, trace := intents - {i}, strays + {i}, power - 1, trace + [StrayIntent(i)];
      return true;
    }

    method QuarantineTemporary(name: Name, aside: Name) returns (done: bool)
      requires Valid() && Legal(Durable(), SetAsideFile(name, aside))
      modifies `outbox, `used, `power, `trace
      ensures Stepped(old(Durable()), old(power), Apply(old(Durable()), SetAsideFile(name, aside)), done)
    {
      hide LegalRun, Run, AppendLegal;
      if power == 0 {
        return false;
      }
      TraceGrows(trace, Durable(), SetAsideFile(name, aside));
      outbox, power := Rename(outbox, name, aside), power - 1;
      used, trace := used + {aside}, trace + [SetAsideFile(name, aside)];
      return true;
    }

    /** The server's confirmation of an upload. */
    method Confirm(r: nat, stamp: nat) returns (done: bool)
      requires Valid() && r in rows
      modifies `rows, `power, `trace
      ensures Stepped(old(Durable()), old(power), Apply(old(Durable()), ConfirmUpload(r, stamp)), done)
    {
      hide LegalRun, Run, AppendLegal;
      if power == 0 {
        return false;
      }
      TraceGrows(trace, Durable(), ConfirmUpload(r, stamp));
      rows, power, trace := rows[r := rows[r].(confirmed := true, stamp := stamp)], power - 1, trace + [ConfirmUpload(r, stamp)];
      return true;
    }

    /* Pruning and its recovery. */

    /** The association's end: the row points at the quarantine name; record it and retire. */
    method FinishAssociated(o: nat, ghost s: State, ghost budget: nat, ghost plan: seq<Write>, ghost k: nat) returns (done: bool)
      requires At(s, budget, plan, k) && plan[k..] == [Append(o, SqliteUpdated), Retire(o)]
      modifies `journal, `active, `retired, `power, `trace
      ensures Wrote(s, budget, plan, done)
    {
      hide Legal, Apply, LegalRun, Run;
      assert plan[k] == plan[k..][0] && plan[k + 1] == plan[k..][1];
      NextWrite(s, plan, k);
      done := AppendEvent(o, SqliteUpdated);
      if !done { return; }
      NextWrite(s, plan, k + 1);
      done := RetireActive(o);
    }

    /** `_write_prune_manual_recovery` unless that event exists, then the record moves to conflicts. */
    method GiveUp(o: nat, ghost s: State, ghost budget: nat, ghost plan: seq<Write>, ghost k: nat) returns (done: bool)
      requires At(s, budget, plan, k) && o in journal && plan[k..] == GiveUpPlan(journal[o], o)
      modifies `journal, `active, `conflicts, `power, `trace
      ensures Wrote(s, budget, plan, done)
    {
      hide Legal, Apply, LegalRun, Run;
      ghost var at := k;
      assert plan[k] == plan[k..][0];
      if ManualRecoveryRequired !in journal[o] {
        assert plan[k + 1] == plan[k..][1];
        NextWrite(s, plan, k);
        done := AppendEvent(o, ManualRecoveryRequired);
        if !done { return; }
        at := k + 1;
      }
      NextWrite(s, plan, at);
      done := MoveToConflicts(o);
    }

    /** `_finish_prune_sqlite_association` and what its callers do with the answer: the compare-and-set
        of the row's path, a re-read when it matched nothing, then retirement or conflict. */
    method Associate(o: nat, ghost s: State, ghost budget: nat, ghost plan: seq<Write>, ghost k: nat) returns (done: bool)
      requires At(s, budget, plan, k)
      requires o in operations && operations[o].artifact in rows && o in journal && ManualRecoveryRequired !in journal[o]
      requires plan[k..] == AssociatePlan(Durable(), o)
      modifies this
      ensures Wrote(s, budget, plan, done)
    {
      hide Legal, Apply, LegalRun, Run;
      var op := operations[o];
      if rows[op.artifact].path == op.original {
        assert plan[k] == plan[k..][0] && plan[k + 1..] == plan[k..][1..];
        NextWrite(s, plan, k);
        done := UpdateRowPath(o);
        if !done { return; }
        done := FinishAssociated(o, s, budget, plan, k + 1);
      } else if rows[op.artifact].path == op.quarantine {
        done := FinishAssociated(o, s, budget, plan, k);
      } else {
        done := GiveUp(o, s, budget, plan, k);
      }
    }

    /** The rest of a prune whose PREPARED event is durable. */
    method QuarantinePrepared(o: nat, ghost op: Operation, ghost s: State, ghost budget: nat) returns (done: bool)
      requires At(s, budget, PrunePlan(o, op), 2)
      requires Inv(s) && Prunable(s, op.artifact) && FreshFor(s, o, op.quarantine) && op == NewOperation(s, op.artifact, op.quarantine)
      modifies this
      ensures Wrote(s, budget, PrunePlan(o, op), done)
    {
      hide Legal, Apply, LegalRun, Run, Inv, FreshFor, Prunable;
      ghost var plan := PrunePlan(o, op);
      NextWrite(s, plan, 2);
      done := MoveToQuarantine(o);
      if !done { return; }
      NextWrite(s, plan, 3);
      PrunedFacts(s, o, op);
      // The bytes under the planned name are the operation's: the mismatch branch is dead.
      assert op.quarantine in outbox && outbox[op.quarantine] == op.file;
      done := AppendEvent(o, Quarantined);
      if !done { return; }
      done := Associate(o, s, budget, plan, 4);
    }

    /** One selected row.  Nothing is written for a row whose file is missing, changed or already
        quarantined; otherwise the seven writes of a prune are made, in order. */
    method PruneRow(r: nat, o: nat, quarantine: Name) returns (done: bool, pruned: bool)
      requires Valid() && r in rows && rows[r].confirmed && FreshFor(Durable(), o, quarantine)
      modifies this
      ensures pruned <==> old(Prunable(Durable(), r))
      ensures Wrote(old(Durable()), old(power), if pruned then PrunePlan(o, NewOperation(old(Durable()), r, quarantine)) else [], done)
    {
      hide Legal, Apply, LegalRun, Run, Inv, FreshFor;
      ghost var s, budget := Durable(), power;
      Invariant();
      PathIsPublic(s, r);
      var row := rows[r];
      if row.path !in outbox || outbox[row.path].body != row.body || row.path.PruneQuarantine? {
        NothingToRun(s);
        Start([]);
        return true, false;
      }
      pruned := true;
      var op := Operation(r, row.path, quarantine, outbox[row.path]);
      ghost var plan := PrunePlan(o, op);
      PrunedFacts(s, o, op);
      Start(plan);
      NextWrite(s, plan, 0);
      done := CreateActiveRecord(o, op);
      if !done { return; }
      NextWrite(s, plan, 1);
      done := AppendEvent(o, Prepared);
      if !done { return; }
      done := QuarantinePrepared(o, op, s, budget);
    }

    /** `_recover_prune_operation`, once the journal leaves the decision to the row and the files. */
    method RecoverFiles(o: nat, ghost s: State, ghost budget: nat, ghost plan: seq<Write>) returns (done: bool)
      requires At(s, budget, plan, 0) && Durable() == s && o in operations && o in journal && plan == RecoverPlan(s, o)
      requires Prepared in journal[o] && SqliteUpdated !in journal[o] && ManualRecoveryRequired !in journal[o] && o !in retired
      modifies this
      ensures Wrote(s, budget, plan, done)
    {
      hide Legal, Apply, LegalRun, Run;
      var op := operations[o];
      assert plan[0..] == plan;
      if op.artifact !in rows || !rows[op.artifact].confirmed || rows[op.artifact].body != op.file.body {
        done := GiveUp(o, s, budget, plan, 0);
        return;
      }
      var originalExists, quarantineExists := op.original in outbox, op.quarantine in outbox;
      if originalExists == quarantineExists {
        done := GiveUp(o, s, budget, plan, 0);
      } else if quarantineExists {
        if outbox[op.quarantine] != op.file {
          done := GiveUp(o, s, budget, plan, 0);
        } else if Quarantined in journal[o] {
          assert plan == [] + AssociatePlan(s, o);
          done := Associate(o, s, budget, plan, 0);
        } else {
          assert plan[0] == Append(o, Quarantined) && plan[1..] == AssociatePlan(s, o);
          NextWrite(s, plan, 0);
          done := AppendEvent(o, Quarantined);
          if !done { return; }
          done := Associate(o, s, budget, plan, 1);
        }
      } else if rows[op.artifact].path != op.original || outbox[op.original] != op.file {
        done := GiveUp(o, s, budget, plan, 0);
      } else {
        done := RecoverMove(o, s, budget, plan);
      }
    }

    method RecoverMove(o: nat, ghost s: State, ghost budget: nat, ghost plan: seq<Write>) returns (done: bool)
      requires At(s, budget, plan, 0) && Durable() == s && o in operations && o in journal && operations[o].artifact in rows
      requires plan == [Move(o), Append(o, Quarantined)] + AssociatePlan(s, o) && ManualRecoveryRequired !in journal[o]
      modifies this
      ensures Wrote(s, budget, plan, done)
    {
      hide Legal, Apply, LegalRun, Run;
      assert plan[0] == Move(o) && plan[1] == Append(o, Quarantined) && plan[2..] == AssociatePlan(s, o);
      NextWrite(s, plan, 0);
      done := MoveToQuarantine(o);
      if !done { return; }
      NextWrite(s, plan, 1);
      done := AppendEvent(o, Quarantined);
      if !done { return; }
      done := Associate(o, s, budget, plan, 2);
    }

    /** One undamaged active record of a recovery pass, branch by branch. */
    method RecoverOperation(o: nat) returns (done: bool)
      requires Valid() && o in active && o !in damaged && o in operations && o in journal
      modifies this
      ensures Wrote(old(Durable()), old(power), old(RecoverPlan(Durable(), o)), done)
    {
      hide Legal, Apply, LegalRun, Run, Inv;
      ghost var s, budget, plan := Durable(), power, RecoverPlan(Durable(), o);
      Invariant();
      RecoveryRuns(s, o);
      Start(plan);
      assert plan[0..] == plan;
      var stages := journal[o];
      if Prepared !in stages {
        done := GiveUp(o, s, budget, plan, 0);
      } else if SqliteUpdated in stages && Quarantined !in stages {
        done := GiveUp(o, s, budget, plan, 0);
      } else if ManualRecoveryRequired in stages {
        done := GiveUp(o, s, budget, plan, 0);
      } else if o in retired {
        done := GiveUp(o, s, budget, plan, 0);
      } else if SqliteUpdated in stages {
        assert plan[0] == Retire(o);
        NextWrite(s, plan, 0);
        done := RetireActive(o);
      } else {
        done := RecoverFiles(o, s, budget, plan);
      }
    }

    /** A part of the plan was written, or as much of it as the remaining power allowed. */
    lemma PartWritten(s: State, budget: nat, plan: seq<Write>, k: nat, here: State, part: seq<Write>, done: bool)
      requires LegalRun(s, plan) && k <= budget && k + |part| <= |plan| && LegalRun(s, plan[..k]) && here == Run(s, plan[..k])
      requires plan[k..k + |part|] == part
      requires Wrote(here, budget - k, part, done)
      ensures if done then At(s, budget, plan, k + |part|) && LegalRun(here, part) && Durable() == Run(here, part)
              else Wrote(s, budget, plan, false)
    {
      hide Legal, Apply, LegalRun, Run;
      assert part[..|part|] == part;
      PartOfPlan(s, plan, k, part, if done then |part| else budget - k);
    }

    ghost function PassOf(names: seq<nat>, limit: nat): (ws: seq<Write>)
      requires Valid() && Pending(Durable(), names)
      reads this
    {
      Invariant();
      PassPlan(Durable(), names, limit)
    }

    /** `_reconcile_prune_intents` over a listing of the active records: a torn record is reported and
        left, the others are settled in order, and the pass stops at the first one beyond its limit that may
        open a file.  It reports more work exactly when a record is left. */
    method ReconcilePrune(names: seq<nat>, limit: nat) returns (done: bool, hasMore: bool)
      requires Valid() && Listing(Durable(), names)
      modifies this
      ensures Wrote(old(Durable()), old(power), old(PassOf(names, limit)), done)
      ensures done ==> (hasMore <==> active != {})
      ensures done ==> forall k | 0 <= k < |names| ::
                names[k] !in active <==> names[k] !in old(damaged) && Opening(old(Durable()), names[..k + 1]) <= limit
    {
      hide Legal, Apply, LegalRun, Run, Inv, PassPlan, Settled, RecoverPlan, Listing, Pending, Opening;
      ghost var s, budget := Durable(), power;
      Invariant();
      ListingIsPending(s, names);
      ghost var plan := PassOf(names, limit);
      ghost var k: nat := 0;
      PassRuns(s, names, limit);
      Start(plan);
      var processed, remaining, i := 0, |names|, 0;
      assert names[0..] == names && plan[0..] == plan;
      while i < |names|
        invariant 0 <= i <= |names| && processed <= limit && remaining == |active|
        invariant At(s, budget, plan, k) && Inv(Durable()) && Pending(Durable(), names[i..])
        invariant plan[k..] == PassPlan(Durable(), names[i..], limit - processed)
      {
        var o := names[i];
        ghost var here, rest, left := Durable(), names[i..], limit - processed;
        assert rest[0] == o && rest[1..] == names[i + 1..];
        FirstIsActive(here, rest);
        PassPlanUnfolds(here, rest, left);
        if o !in damaged {
          var log := journal[o];
          var counted := Prepared in log && ManualRecoveryRequired !in log && o !in retired && (SqliteUpdated in log ==> Quarantined in log);
          if counted && processed == limit {
            ReachOfPass(s, names, limit);
            return true, true;
          }
          ghost var part := RecoverPlan(here, o);
          assert plan == plan[..k] + plan[k..];
          done := RecoverOperation(o);
          PartWritten(s, budget, plan, k, here, part, done);
          if !done {
            return false, true;
          }
          remaining, k := remaining - 1, k + |part|;
          processed := if counted then processed + 1 else processed;
        }
        i := i + 1;
      }
      NothingPending(Durable(), names[i..], limit - processed);
      assert |active| == 0 ==> active == {};
      assert k == |plan| && plan[..k] == plan;
      assert Durable() == PassState(s, names, limit);
      ReachOfPass(s, names, limit);
      return true, remaining > 0;
    }

    /** `_prune_confirmed_sync`; `selected` is what its query answers.  These are the oldest rows that the
        policy does not keep, and of them the call prunes those that no unfinished prune holds. */
    method PruneConfirmed(policy: Policy, limit: nat, selected: seq<nat>, tokens: seq<Token>) returns (done: bool)
      requires Valid() && |tokens| == |selected| && FreshTokens(Durable(), tokens)
      requires Answer(Candidates(Durable()), policy, limit, selected)
      modifies this
      ensures Valid()
      ensures done ==> OneBatchPruned(old(Durable()), policy, limit, selected, Durable())
      ensures done ==> rows.Keys == old(rows).Keys && forall r | r in rows :: rows[r] != old(rows)[r] <==> r in selected && !Held(old(Durable()), r)
      ensures done ==> forall kept | Retained(old(Durable()), policy, kept) :: Returns(old(Durable()), kept, limit, selected)
    {
      AnswerConfirmed(Durable(), policy, limit, selected);
      Invariant();
      ghost var s := Durable();
      hide Legal, Apply, LegalRun, Run, Inv, BatchPruned, FreshTokens, AllConfirmed, Answer, Retained, Returns, Held, Candidates;
      done := PruneRows(selected, tokens);
      if done {
        assert OneBatchPruned(s, policy, limit, selected, Durable());
        OneBatchLaw(s, policy, limit, selected, Durable());
      }
    }

    /** The rows, one after the other. */
    method PruneRows(selected: seq<nat>, tokens: seq<Token>) returns (done: bool)
      requires Valid() && |tokens| == |selected| && FreshTokens(Durable(), tokens)
      requires AllConfirmed(Durable(), selected)
      modifies this
      ensures Valid()
      ensures done ==> BatchPruned(old(Durable()), selected, Durable())
    {
      hide Legal, Apply, LegalRun, Run, Inv, BatchPruned, FreshFor, Prunable, AllConfirmed, FreshTokens;
      ghost var s := Durable();
      assert selected[0..] == selected && tokens[0..] == tokens;
      var i := 0;
      while i < |selected|
        invariant 0 <= i <= |selected| && Valid()
        invariant AllConfirmed(Durable(), selected[i..]) && FreshTokens(Durable(), tokens[i..])
        invariant forall t :: BatchPruned(Durable(), selected[i..], t) ==> BatchPruned(s, selected, t)
      {
        ghost var here, rest := Durable(), selected[i..];
        var r, token := selected[i], tokens[i];
        assert rest[0] == r && rest[1..] == selected[i + 1..];
        assert tokens[i..][0] == token && tokens[i..][1..] == tokens[i + 1..];
        FirstOfBatch(here, rest, tokens[i..]);
        Invariant();
        var pruned;
        done, pruned := PruneRow(r, token.operation, token.quarantine);
        if !done {
          return false;
        }
        PrunedInBatch(here, rest, tokens[i..], Durable(), pruned);
        i := i + 1;
      }
      assert BatchPruned(Durable(), selected[i..], Durable()) by { EmptyBatch(Durable(), selected[i..]); }
      done := true;
    }

    /* Staging and its recovery. */

    /** `_stage_sync`, with the point at which a cancellation or the deadline catches it.  What is not
        yet published is cleaned up; from publication on there is no way back. */
    method Stage(i: nat, intent: Intent, file: File, stamp: nat, aside: Name, caught: Checkpoint) returns (done: bool)
      requires Valid() && Stageable(Durable(), i, intent, file) && aside.SetAside? && aside !in used
      modifies this
      ensures Wrote(old(Durable()), old(power), StageWrites(caught, i, intent, file, stamp, aside), done)
    {
      hide Legal, Apply, LegalRun, Run, Inv, Stageable, StagePlan;
      ghost var s, budget, plan := Durable(), power, StageWrites(caught, i, intent, file, stamp, aside);
      Invariant();
      StageWritesRun(s, caught, i, intent, file, stamp, aside);
      Start(plan);
      StagePositions(caught, i, intent, file, stamp, aside);
      NextWrite(s, plan, 0);
      done := CopyTemporary(intent.temporary, file);
      if !done { return; }
      if caught == Copying {
        done := CleanUp(i, intent, false, aside, s, budget, plan, 1);
        return;
      }
      NextWrite(s, plan, 1);
      done := RecordIntent(i, intent);
      if !done { return; }
      if caught != Never {
        done := CleanUp(i, intent, true, aside, s, budget, plan, 2);
        return;
      }
      done := Commit(i, stamp, s, budget, plan, 2);
    }

    /** The handler of a stage that raised before publication. */
    method CleanUp(i: nat, intent: Intent, intentWritten: bool, aside: Name,
                   ghost s: State, ghost budget: nat, ghost plan: seq<Write>, ghost k: nat)
      returns (done: bool)
      requires At(s, budget, plan, k) && plan[k..] == AbortPlan(i, intent, intentWritten, aside)
      modifies `outbox, `used, `intents, `strays, `power, `trace
      ensures Wrote(s, budget, plan, done)
    {
      hide Legal, Apply, LegalRun, Run;
      assert plan[k] == plan[k..][0];
      NextWrite(s, plan, k);
      done := QuarantineTemporary(intent.temporary, aside);
      if !done { return; }
      if intentWritten {
        assert plan[k + 1] == plan[k..][1];
        NextWrite(s, plan, k + 1);
        done := CleanUpIntent(i);
      }
    }

    /** From publication on: the rename, the row, and the end of the intent. */
    method Commit(i: nat, stamp: nat, ghost s: State, ghost budget: nat, ghost plan: seq<Write>, ghost k: nat) returns (done: bool)
      requires At(s, budget, plan, k) && plan[k..] == [Publish(i), InsertRow(i, stamp), DropIntent(i)]
      modifies `outbox, `intents, `rows, `used, `born, `power, `trace
      ensures Wrote(s, budget, plan, done)
    {
      hide Legal, Apply, LegalRun, Run;
      assert plan[k] == plan[k..][0] && plan[k + 1] == plan[k..][1] && plan[k + 2] == plan[k..][2];
      NextWrite(s, plan, k);
      done := PublishWithoutOverwrite(i);
      if !done { return; }
      NextWrite(s, plan, k + 1);
      done := InsertPendingRow(i, stamp);
      if !done { return; }
      NextWrite(s, plan, k + 2);
      done := QuarantineIntent(i);
    }

    /** `_reconcile_intent`, branch by branch.  Where the final name exists and so does the row, the row
        is the intent's: the idempotency conflict of `ensure_artifact_queued` cannot arise. */
    method ReconcileIntent(i: nat, aside: Name, stamp: nat) returns (done: bool, refused: bool)
      requires Valid() && i in intents && aside.SetAside? && aside !in used
      modifies `outbox, `intents, `rows, `used, `born, `power, `trace
      ensures refused <==> old(Refused(Durable(), i))
      ensures Wrote(old(Durable()), old(power), old(ReconcilePlan(Durable(), i, aside, stamp)), done)
    {
      hide Legal, Apply, LegalRun, Run, Inv;
      ghost var s, budget, plan := Durable(), power, ReconcilePlan(Durable(), i, aside, stamp);
      Invariant();
      ReconcileOutcome(s, i, aside, stamp);
      Start(plan);
      assert plan[0..] == plan;
      var intent := intents[i];
      refused := false;
      if intent.final in outbox {
        RowIsTheIntents(s, i);
        ghost var k := 0;
        if intent.artifact in rows {
          assert rows[intent.artifact].path == intent.final && rows[intent.artifact].body == intent.body && rows[intent.artifact].task == intent.task;
        } else {
          NextWrite(s, plan, 0);
          done := InsertPendingRow(i, stamp);
          if !done { return; }
          k := 1;
        }
        // No temporary is left once the final name exists: publication is one rename.
        assert intent.temporary !in outbox;
        NextWrite(s, plan, k);
        done := QuarantineIntent(i);
      } else if intent.temporary in outbox {
        if intent.authority {
          done := Commit(i, stamp, s, budget, plan, 0);
        } else {
          NextWrite(s, plan, 0);
          done := QuarantineTemporary(intent.temporary, aside);
          if !done { return; }
          NextWrite(s, plan, 1);
          done := QuarantineIntent(i);
        }
      } else if intent.authority {
        return true, true;
      } else {
        NextWrite(s, plan, 0);
        done := QuarantineIntent(i);
      }
    }

    /** The intents of a scan: each that concerns its subject is recovered, or counted as an issue if it is
        refused; an entry that carries a prefix the scan does not know is an issue whomever it was about.
        What is left is what was refused or not the scan's concern. */
    method ReconcileIntents(entries: seq<ScanEntry>, asides: seq<Name>, stamp: nat, subject: Subject) returns (done: bool, issues: nat)
      requires Valid() && ScanOf(Durable(), entries) && |asides| == |entries| && FreshAsides(Durable(), asides)
      modifies `outbox, `intents, `rows, `used, `born, `power, `trace
      ensures Valid()
      ensures done ==> (issues == 0 <==> old(ScanPasses(Durable(), subject))) && FilesKept(old(Durable()), Durable())
      ensures done ==> strays == old(strays) && forall name | name in used :: name in old(used) || name in asides
      ensures done ==> forall i :: i in intents <==> i in old(intents) && (old(Refused(Durable(), i)) || !Concerns(subject, old(intents)[i]))
      ensures done ==> forall i | i in intents :: intents[i] == old(intents)[i] && (Refused(Durable(), i) <==> old(Refused(Durable(), i)))
    {
      hide Legal, Apply, LegalRun, Run, Inv, Refused, FreshAsides, Scanned, ScanOf, ReconcilePlan, FilesKept, ScanPasses;
      ghost var s := Durable();
      issues := 0;
      var n := 0;
      ScanBegins(s, entries, subject);
      NothingKept(s);
      assert asides[0..] == asides;
      while n < |entries|
        invariant 0 <= n <= |entries| && Valid() && FilesKept(s, Durable())
        invariant forall name | name in used :: name in s.used || name in asides
        invariant FreshAsides(Durable(), asides[n..]) && Scanned(s, Durable(), entries, n, subject, issues == 0)
      {
        ghost var here, clean := Durable(), issues == 0;
        NextAside(here, asides, n);
        match entries[n] {
          case StrayFile(_) =>
            ScanSkips(s, here, entries, n, subject, clean);
            issues := issues + 1;
          case IntentFile(i) =>
            ScanIntent(s, here, entries, n, subject, clean);
            if Concerns(subject, intents[i]) {
              var refused;
              done, refused := RecoverFor(i, asides[n], stamp);
              if !done {
                return;
              }
              ScanReconciled(s, here, Durable(), entries, n, subject, clean, asides[n]);
              NextAsides(here, Durable(), asides, n);
              FilesKeptOn(s, here, Durable());
              if refused {
                issues := issues + 1;
              }
            } else {
              ScanSkips(s, here, entries, n, subject, clean);
            }
        }
        n := n + 1;
      }
      ScanEnds(s, Durable(), entries, subject, issues == 0);
      done := true;
    }

    /** One intent of a scan, and what its recovery leaves alone. */
    method RecoverFor(i: nat, aside: Name, stamp: nat) returns (done: bool, refused: bool)
      requires Valid() && i in intents && aside.SetAside? && aside !in used
      modifies `outbox, `intents, `rows, `used, `born, `power, `trace
      ensures Valid() && (refused <==> old(Refused(Durable(), i)))
      ensures done ==> OthersKept(old(Durable()), Durable(), i, aside) && FilesKept(old(Durable()), Durable()) && used <= old(used) + {aside}
      ensures done ==> if refused then Durable() == old(Durable()) else intents == old(intents) - {i}
    {
      hide Legal, Apply, LegalRun, Run, Inv, ReconcilePlan, FilesKept;
      ghost var here := Durable();
      Invariant();
      ReconcileOutcome(here, i, aside, stamp);
      ReconcileKeepsOthers(here, i, aside, stamp);
      ReconcileKeepsFiles(here, i, aside, stamp);
      ghost var plan := ReconcilePlan(here, i, aside, stamp);
      assert plan[..|plan|] == plan;
      done, refused := ReconcileIntent(i, aside, stamp);
    }

    /** `_reconcile_and_find_existing`, under the stage lock: recover what concerns the artifact or its
        execution, check the artifact's row, and raise if there was anything to report.  It passes exactly
        when there is no stray, no intent that concerns it is refused, and the row's file, if there is a
        row, is not held by an unfinished prune. */
    method Preflight(artifact: nat, execution: nat, task: nat, entries: seq<ScanEntry>, asides: seq<Name>, stamp: nat)
      returns (done: bool, finding: Finding)
      requires Valid() && ScanOf(Durable(), entries) && |asides| == |entries| && FreshAsides(Durable(), asides)
      modifies `outbox, `intents, `rows, `used, `born, `power, `trace
      ensures Valid()
      ensures done ==> (finding.Unclean? <==> !old(PreflightPasses(Durable(), artifact, execution))) && FilesKept(old(Durable()), Durable())
      ensures done ==> forall i :: i in intents <==> i in old(intents) && (old(Refused(Durable(), i)) || !Concerns(About(artifact, execution), old(intents)[i]))
      ensures done ==> forall i | i in intents :: intents[i] == old(intents)[i]
      ensures done ==> strays == old(strays) && forall name | name in used :: name in old(used) || name in asides
      ensures done && finding.Nothing? ==> artifact !in rows
      ensures done && finding.OtherTask? ==> artifact in rows && rows[artifact].task != task
      ensures done && finding.Existing? ==>
                && artifact in rows && rows[artifact].task == task && finding.path == rows[artifact].path
                && finding.path in outbox && outbox[finding.path].body == rows[artifact].body
    {
      hide Legal, Apply, LegalRun, Run, Inv, Refused, FreshAsides, ScanOf, ScanPasses;
      ghost var s := Durable();
      finding := Unclean;
      var issues;
      done, issues := ReconcileIntents(entries, asides, stamp, About(artifact, execution));
      if !done { return; }
      Invariant();
      if artifact !in rows {
        return true, if issues > 0 then Unclean else Nothing;
      }
      var row := rows[artifact];
      RowFile(Durable(), artifact);
      if row.path !in outbox || outbox[row.path].body != row.body {
        issues := issues + 1;
      }
      RowFileKept(s, Durable(), artifact);
      if issues > 0 {
        return true, Unclean;
      }
      return true, if row.task != task then OtherTask else Existing(row.path);
    }

    /** `_stage_exclusive`: the preflight, and then the worker unless there was something to report or the
        artifact is staged already.  With a stray in the intents directory it always raises, and a stage
        caught with its intent written leaves one. */
    method StageExclusive(i: nat, intent: Intent, file: File, stamp: nat, aside: Name, caught: Checkpoint,
                          entries: seq<ScanEntry>, asides: seq<Name>)
      returns (done: bool, finding: Finding)
      requires Valid() && Drawn(Durable(), i, intent, file) && aside.SetAside? && aside !in used && aside !in asides
      requires ScanOf(Durable(), entries) && |asides| == |entries| && FreshAsides(Durable(), asides)
      modifies this
      ensures Valid()
      ensures done ==> (finding.Unclean? <==> !old(PreflightPasses(Durable(), intent.artifact, intent.execution)))
      ensures done && finding.Unclean? ==> intent.final !in outbox && i !in intents
      ensures done && old(strays) != {} ==> finding.Unclean?
      ensures done && finding.Nothing? ==> strays == if caught.Ready? || caught.BeginCommit? then {i} else {}
      ensures done && finding.Nothing? && caught.Never? ==>
                && intent.final in outbox && outbox[intent.final] == file && i !in intents
                && intent.artifact in rows && rows[intent.artifact] == Row(intent.final, intent.body, intent.task, false, stamp)
    {
      hide Legal, Apply, LegalRun, Run, Inv, Refused, FreshAsides, ScanOf, ScanPasses, Stageable, StagePlan;
      ghost var s := Durable();
      PassNeedsNoStray(s, About(intent.artifact, intent.execution));
      done, finding := Preflight(intent.artifact, intent.execution, intent.task, entries, asides, stamp);
      if !done { return; }
      Invariant();
      UsedNames(Durable());
      if !finding.Nothing? { return; }
      PassedIsStageable(s, Durable(), i, intent, file);
      ghost var t := Durable();
      Invariant();
      StageWritesRun(t, caught, i, intent, file, stamp, aside);
      ghost var plan := StageWrites(caught, i, intent, file, stamp, aside);
      assert plan[..|plan|] == plan;
      done := Stage(i, intent, file, stamp, aside, caught);
      if done && caught.Never? {
        StageEffect(t, i, intent, file, stamp);
      }
    }

    /** The startup audit of the rows that still wait for their upload: it never finds one whose file
        is missing or changed. */
    method AuditPending() returns (sound: bool)
      requires Valid()
      ensures sound
    {
      hide Legal, Apply, LegalRun, Run, Inv;
      sound := true;
      var left := set r | r in rows && !rows[r].confirmed;
      while left != {}
        invariant sound && left <= rows.Keys && forall r | r in left :: !rows[r].confirmed
        decreases left
      {
        var r :| r in left;
        Invariant();
        FileAtItsPath(Durable(), r);
        BornAsRecorded(Durable(), r);
        sound := sound && rows[r].path in outbox && outbox[rows[r].path].body == rows[r].body;
        left := left - {r};
      }
    }

    /** `_reconcile_startup_sync`: prune recovery under its own limit, then the intents, then the audit.
        If nothing stops it, every intent left is a refused one, the report of unfinished prunes is
        accurate, and the scan is clean exactly when no intent and no stray is left. */
    method Startup(names: seq<nat>, limit: nat, entries: seq<ScanEntry>, asides: seq<Name>, stamp: nat)
      returns (done: bool, hasMore: bool, clean: bool)
      requires Valid() && Listing(Durable(), names)
      requires ScanOf(Durable(), entries) && |asides| == |entries| && FreshAsides(Durable(), asides)
      modifies this
      ensures Valid()
      ensures done ==> strays == old(strays) && forall i | i in intents :: i in old(intents) && Refused(Durable(), i)
      ensures done ==> (hasMore <==> active != {}) && (clean <==> strays == {} && intents == map[])
    {
      hide Legal, Apply, LegalRun, Run, Inv, Refused, FreshAsides, ScanOf, Listing;
      ghost var s := Durable();
      Invariant();
      clean := false;
      done, hasMore := ReconcilePrune(names, limit);
      if !done { return; }
      PassOnlyPrunes(s, names, limit, entries, asides);
      ghost var plan := PassPlan(s, names, limit);
      assert plan[..|plan|] == plan;
      ghost var t := Durable();
      var issues;
      done, issues := ReconcileIntents(entries, asides, stamp, Everything);
      if !done { return; }
      EverythingScanned(t, Durable());
      var sound := AuditPending();
      clean := issues == 0 && sound;
    }
  }

  /** What a preflight finds: something to report, no row, a row of another task, or the staged artifact. */
  datatype Finding = Unclean | Nothing | OtherTask | Existing(path: Name)

  lemma PassNeedsNoStray(s: State, subject: Subject)
    ensures s.strays != {} ==> !ScanPasses(s, subject)
  {
  }

  lemma UsedNames(s: State)
    requires Inv(s)
    ensures s.outbox.Keys <= s.used
  {
  }

  /** A row's file is intact wherever it is. */
  lemma RowFile(s: State, r: nat)
    requires Inv(s) && r in s.rows
    ensures s.rows[r].path in s.outbox ==> s.outbox[s.rows[r].path].body == s.rows[r].body
  {
    assert RowOk(s, r);
  }

  /** After a scan of everything only refused intents are left, and it passes exactly when nothing is. */
  lemma EverythingScanned(s: State, t: State)
    requires t.strays == s.strays
    requires forall i :: i in t.intents <==> i in s.intents && (Refused(s, i) || !Concerns(Everything, s.intents[i]))
    requires forall i | i in t.intents :: t.intents[i] == s.intents[i] && (Refused(t, i) <==> Refused(s, i))
    ensures forall i | i in t.intents :: i in s.intents && Refused(t, i)
    ensures ScanPasses(s, Everything) <==> t.strays == {} && t.intents == map[]
  {
    hide Refused;
    if ScanPasses(s, Everything) {
      assert t.intents.Keys == {};
    }
    if t.intents == map[] {
      forall i | i in s.intents ensures !Refused(s, i) {
        assert i !in t.intents;
      }
    }
  }

  lemma RowFileKept(s: State, t: State, r: nat)
    requires FilesKept(s, t) && r in t.rows
    ensures t.rows[r].path in t.outbox <==> (r in s.rows ==> s.rows[r].path in s.outbox)
  {
  }

  lemma BornAsRecorded(s: State, r: nat)
    requires Inv(s) && r in s.rows && r in s.born
    ensures s.born[r].body == s.rows[r].body
  {
    assert RowOk(s, r);
  }

  lemma PassOnlyPrunes(s: State, names: seq<nat>, limit: nat, entries: seq<ScanEntry>, asides: seq<Name>)
    requires Reachable(s) && Listing(s, names) && ScanOf(s, entries) && FreshAsides(s, asides)
    ensures Inv(s) && Pending(s, names)
    ensures LegalRun(s, PassPlan(s, names, limit))
    ensures var t := Run(s, PassPlan(s, names, limit)); ScanOf(t, entries) && FreshAsides(t, asides) && t.intents == s.intents && t.strays == s.strays
  {
    hide Inv, PassPlan;
    ReachableInv(s);
    PassKeepsRows(s, names, limit);
    var t := PassState(s, names, limit);
  }

  lemma StagePositions(caught: Checkpoint, i: nat, intent: Intent, file: File, stamp: nat, aside: Name)
    ensures var plan := StageWrites(caught, i, intent, file, stamp, aside);
            && |plan| >= 2 && plan[0] == WriteTemporary(intent.temporary, file)
            && (caught == Copying ==> plan[1..] == AbortPlan(i, intent, false, aside))
            && (caught != Copying ==> plan[1] == WriteIntent(i, intent))
            && (caught.Ready? || caught.BeginCommit? ==> plan[2..] == AbortPlan(i, intent, true, aside))
            && (caught == Never ==> plan[2..] == [Publish(i), InsertRow(i, stamp), DropIntent(i)])
  {
  }

  lemma RowIsTheIntents(s: State, i: nat)
    requires Inv(s) && i in s.intents && s.intents[i].final in s.outbox
    ensures s.intents[i].temporary !in s.outbox
    ensures var intent := s.intents[i];
            intent.artifact in s.rows ==>
              && s.rows[intent.artifact].path == intent.final
              && s.rows[intent.artifact].body == intent.body && s.rows[intent.artifact].task == intent.task
  {
    assert IntentOk(s, i);
  }

  /** The operation identifier and the quarantine name drawn for one prune. */
  datatype Token = Token(operation: nat, quarantine: Name)

  ghost predicate FreshTokens(s: State, tokens: seq<Token>) {
    && (forall k | 0 <= k < |tokens| :: FreshFor(s, tokens[k].operation, tokens[k].quarantine))
    && (forall j, k | 0 <= j < k < |tokens| :: tokens[j].operation != tokens[k].operation && tokens[j].quarantine != tokens[k].quarantine)
  }

  ghost predicate AllConfirmed(s: State, selected: seq<nat>) {
    forall k | 0 <= k < |selected| :: selected[k] in s.rows && s.rows[selected[k]].confirmed
  }

  lemma AnswerConfirmed(s: State, policy: Policy, limit: nat, selected: seq<nat>)
    requires Answer(Candidates(s), policy, limit, selected)
    ensures AllConfirmed(s, selected)
  {
  }

  lemma FirstOfBatch(s: State, rest: seq<nat>, tokens: seq<Token>)
    requires rest != [] && |tokens| == |rest| && AllConfirmed(s, rest) && FreshTokens(s, tokens)
    ensures rest[0] in s.rows && s.rows[rest[0]].confirmed && FreshFor(s, tokens[0].operation, tokens[0].quarantine)
  {
  }

  lemma EmptyBatch(s: State, rest: seq<nat>)
    requires rest == []
    ensures BatchPruned(s, rest, s)
  {
  }

  /** After one row of a batch, the rest of the batch is as before. */
  lemma PrunedInBatch(s: State, rest: seq<nat>, tokens: seq<Token>, t: State, pruned: bool)
    requires Inv(s) && rest != [] && |tokens| == |rest| && AllConfirmed(s, rest) && FreshTokens(s, tokens)
    requires pruned <==> Prunable(s, rest[0])
    requires var plan := if pruned then PrunePlan(tokens[0].operation, NewOperation(s, rest[0], tokens[0].quarantine)) else [];
             LegalRun(s, plan) && LegalRun(s, plan[..|plan|]) && t == Run(s, plan[..|plan|])
    ensures AllConfirmed(t, rest[1..]) && FreshTokens(t, tokens[1..])
    ensures forall u :: BatchPruned(t, rest[1..], u) ==> BatchPruned(s, rest, u)
  {
    hide Inv, Legal, Apply;
    if pruned {
      var o, q := tokens[0].operation, tokens[0].quarantine;
      var op := NewOperation(s, rest[0], q);
      var plan := PrunePlan(o, op);
      assert plan[..|plan|] == plan && plan[..7] == plan;
      PruneRuns(s, o, op, 7);
      hide LegalRun, Run;
      assert PrunesFirst(s, rest, o, q) && t == AfterPrune(s, rest[0], o, q);
    }
  }

  lemma ListingIsPending(s: State, names: seq<nat>)
    requires Listing(s, names)
    ensures Pending(s, names) && |names| == |s.active|
  {
    ListingSize(s.active, names);
  }

  lemma FirstIsActive(s: State, os: seq<nat>)
    requires Inv(s) && Pending(s, os) && os != []
    ensures os[0] in s.active && os[0] in s.operations && os[0] in s.journal
  {
    ActiveIsKnown(s, os[0]);
  }

  lemma NothingPending(s: State, os: seq<nat>, limit: nat)
    requires Inv(s) && Pending(s, os) && os == []
    ensures PassPlan(s, os, limit) == []
  {
  }

  /** One step of the pass: what it writes for the first record, and what is left to do then. */
  lemma PassPlanUnfolds(s: State, os: seq<nat>, limit: nat)
    requires Inv(s) && Pending(s, os) && os != [] && os[0] in s.operations && os[0] in s.journal
    ensures os[0] in s.damaged ==> Pending(s, os[1..]) && PassPlan(s, os, limit) == PassPlan(s, os[1..], limit)
    ensures os[0] !in s.damaged && Counted(s, os[0]) && limit == 0 ==> PassPlan(s, os, limit) == [] && |s.active| > 0
    ensures os[0] !in s.damaged && (limit > 0 || !Counted(s, os[0])) ==>
              var o, part, next := os[0], RecoverPlan(s, os[0]), if Counted(s, os[0]) then limit - 1 else limit;
              && Recoverable(s, o) && LegalRun(s, part)
              && Run(s, part) == Settled(s, o) && Inv(Settled(s, o)) && Pending(Settled(s, o), os[1..])
              && PassPlan(s, os, limit) == part + PassPlan(Settled(s, o), os[1..], next)
              && |Settled(s, o).active| == |s.active| - 1
  {
    hide Inv, RecoverPlan;
    var o := os[0];
    if o !in s.damaged && (limit > 0 || !Counted(s, o)) {
      PendingAfter(s, os);
      SettledFiles(s, o);
    }
  }

  /** Where a prune stands after its move and after its QUARANTINED event. */
  lemma PrunedFacts(s: State, o: nat, op: Operation)
    requires Inv(s) && Prunable(s, op.artifact) && FreshFor(s, o, op.quarantine) && op == NewOperation(s, op.artifact, op.quarantine)
    ensures var plan := PrunePlan(o, op);
            && LegalRun(s, plan) && LegalRun(s, plan[..3]) && LegalRun(s, plan[..4])
            && var moved, quarantined := Run(s, plan[..3]), Run(s, plan[..4]);
            && op.quarantine in moved.outbox && moved.outbox[op.quarantine] == op.file
            && o in quarantined.operations && quarantined.operations[o] == op && op.artifact in quarantined.rows
            && o in quarantined.journal && ManualRecoveryRequired !in quarantined.journal[o]
            && plan[4..] == AssociatePlan(quarantined, o)
  {
    hide Inv;
    var plan := PrunePlan(o, op);
    PruneRuns(s, o, op, 3);
    PruneRuns(s, o, op, 4);
    PruneRuns(s, o, op, 7);
    assert plan[..7] == plan;
  }

  lemma PathIsPublic(s: State, r: nat)
    requires Inv(s) && r in s.rows
    ensures s.rows[r].path.Final? || s.rows[r].path.PruneQuarantine?
  {
    assert RowOk(s, r);
  }

  lemma NothingToRun(s: State)
    ensures LegalRun(s, [])
  {
  }
}
