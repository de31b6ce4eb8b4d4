/** Staging is all or nothing across crashes: recovery of an intent either finishes the stage or
    undoes it, and a version 2 intent is never dropped before its row exists. */
module StagingRecovery {
  import opened OutboxState
  import opened OutboxInvariant
  import opened OutboxPlans
  import opened OutboxSafety
  import opened PruneRecovery

  /** Names drawn at random and a file just created are new. */
  ghost predicate Drawn(s: State, i: nat, intent: Intent, file: File) {
    && i !in s.intents && i !in s.strays
    && intent.temporary.Staging? && intent.temporary !in s.used
    && intent.final.Final? && intent.final !in s.used
    && file.body == intent.body
    && (forall n | n in s.outbox :: s.outbox[n].inode != file.inode)
    && (forall r | r in s.born :: s.born[r].inode != file.inode)
  }

  /** What the preflight under the stage lock establishes before a stage starts, with fresh names: no
      stray is there, and neither a row nor an intent names the artifact. */
  ghost predicate Stageable(s: State, i: nat, intent: Intent, file: File) {
    && Drawn(s, i, intent, file)
    && s.strays == {} && intent.artifact !in s.rows
    && forall j | j in s.intents :: s.intents[j].artifact != intent.artifact
  }

  /** The state after the first k writes of a stage. */
  ghost function Staged(s: State, i: nat, intent: Intent, file: File, stamp: nat, k: nat): (t: State) {
    s.(outbox := if k == 0 then s.outbox else if k < 3 then s.outbox[intent.temporary := file] else s.outbox[intent.final := file],
       used := s.used + (if k == 0 then {} else {intent.temporary}) + (if k < 2 then {} else {intent.final}),
       intents := if k < 2 || k > 4 then s.intents else s.intents[i := intent],
       rows := if k < 4 then s.rows else s.rows[intent.artifact := Row(intent.final, intent.body, intent.task, false, stamp)],
       born := if k < 4 then s.born else s.born[intent.artifact := file])
  }

  lemma StageStep(s: State, i: nat, intent: Intent, file: File, stamp: nat, k: nat)
    requires s.outbox.Keys <= s.used && Stageable(s, i, intent, file) && k < 5
    requires forall j | j in s.intents :: s.intents[j].temporary in s.used
    ensures Legal(Staged(s, i, intent, file, stamp, k), StagePlan(i, intent, file, stamp)[k])
    ensures Apply(Staged(s, i, intent, file, stamp, k), StagePlan(i, intent, file, stamp)[k]) == Staged(s, i, intent, file, stamp, k + 1)
  {
    if k < 2 {
      IntentStep(s, i, intent, file, stamp, k);
    } else {
      CommitStep(s, i, intent, file, stamp, k);
    }
  }

  lemma IntentStep(s: State, i: nat, intent: Intent, file: File, stamp: nat, k: nat)
    requires s.outbox.Keys <= s.used && Stageable(s, i, intent, file) && k < 2
    requires forall j | j in s.intents :: s.intents[j].temporary in s.used
    ensures Legal(Staged(s, i, intent, file, stamp, k), StagePlan(i, intent, file, stamp)[k])
    ensures Apply(Staged(s, i, intent, file, stamp, k), StagePlan(i, intent, file, stamp)[k]) == Staged(s, i, intent, file, stamp, k + 1)
  {
    var t, u := Staged(s, i, intent, file, stamp, k), Staged(s, i, intent, file, stamp, k + 1);
    if k == 0 {
      assert t == s && s.used + {intent.temporary} == u.used;
    } else {
      assert t.used + {intent.final} == u.used;
    }
  }

  lemma CommitStep(s: State, i: nat, intent: Intent, file: File, stamp: nat, k: nat)
    requires s.outbox.Keys <= s.used && Stageable(s, i, intent, file) && 2 <= k < 5
    ensures Legal(Staged(s, i, intent, file, stamp, k), StagePlan(i, intent, file, stamp)[k])
    ensures Apply(Staged(s, i, intent, file, stamp, k), StagePlan(i, intent, file, stamp)[k]) == Staged(s, i, intent, file, stamp, k + 1)
  {
    var t, u := Staged(s, i, intent, file, stamp, k), Staged(s, i, intent, file, stamp, k + 1);
    assert intent.temporary !in s.outbox && intent.final !in s.outbox;
    if k == 2 {
      assert Rename(t.outbox, intent.temporary, intent.final) == u.outbox;
    } else if k == 3 {
      assert Apply(t, InsertRow(i, stamp)).rows == u.rows;
    } else {
      assert t.intents - {i} == u.intents;
    }
  }

  lemma {:induction false} StageRuns(s: State, i: nat, intent: Intent, file: File, stamp: nat, k: nat)
    requires Inv(s) && Stageable(s, i, intent, file) && k <= 5
    ensures LegalRun(s, StagePlan(i, intent, file, stamp)[..k])
    ensures Run(s, StagePlan(i, intent, file, stamp)[..k]) == Staged(s, i, intent, file, stamp, k)
  {
    hide Inv, Legal, Apply, Stageable;
    if k == 0 {
      assert Staged(s, i, intent, file, stamp, 0) == s;
    } else {
      var ws := StagePlan(i, intent, file, stamp);
      StageRuns(s, i, intent, file, stamp, k - 1);
      NamesUsed(s);
      StageStep(s, i, intent, file, stamp, k - 1);
      RunOne(Staged(s, i, intent, file, stamp, k - 1), ws[k - 1]);
      RunAppend(s, ws[..k - 1], [ws[k - 1]]);
      assert ws[..k - 1] + [ws[k - 1]] == ws[..k];
    }
  }

  lemma NamesUsed(s: State)
    requires Inv(s)
    ensures s.outbox.Keys <= s.used
    ensures forall j | j in s.intents :: s.intents[j].temporary in s.used
  {
    forall j | j in s.intents ensures s.intents[j].temporary in s.used {
      assert IntentOk(s, j);
    }
  }

  /** From every crash point that left a version 2 intent, and from every one at which a version 1
      stage had published its final name, recovery makes exactly the writes the crash cut off and ends
      in the state of the uninterrupted stage. */
  lemma CrashedStageFinishes(s: State, i: nat, intent: Intent, file: File, stamp: nat, k: nat, aside: Name)
    requires Inv(s) && Stageable(s, i, intent, file) && 2 <= k < 5 && (intent.authority || k >= 3)
    ensures var ws := StagePlan(i, intent, file, stamp);
            && LegalRun(s, ws) && LegalRun(s, ws[..k])
            && var crashed := Run(s, ws[..k]);
            && i in crashed.intents
            && ReconcilePlan(crashed, i, aside, stamp) == ws[k..] && LegalRun(crashed, ws[k..])
            && Run(crashed, ReconcilePlan(crashed, i, aside, stamp)) == Run(s, ws)
  {
    var ws := StagePlan(i, intent, file, stamp);
    StageRuns(s, i, intent, file, stamp, k);
    StageRuns(s, i, intent, file, stamp, 5);
    assert ws[..5] == ws && ws[..k] + ws[k..] == ws;
    RunSplit(s, ws[..k], ws[k..]);
    NamesUsed(s);
    hide Inv;
    StageCutOff(s, i, intent, file, stamp, k, aside);
  }

  /** The uninterrupted stage: the bytes are published, the row points at them, the intent is gone. */
  lemma StageEffect(s: State, i: nat, intent: Intent, file: File, stamp: nat)
    requires Inv(s) && Stageable(s, i, intent, file)
    ensures LegalRun(s, StagePlan(i, intent, file, stamp))
    ensures var t := Run(s, StagePlan(i, intent, file, stamp));
            && t.outbox == s.outbox[intent.final := file] && t.intents == s.intents
            && t.rows == s.rows[intent.artifact := Row(intent.final, intent.body, intent.task, false, stamp)]
  {
    StageRuns(s, i, intent, file, stamp, 5);
    assert StagePlan(i, intent, file, stamp)[..5] == StagePlan(i, intent, file, stamp);
  }

  /** A version 1 stage that crashed before publication is undone: no intent, no row, no final name. */
  lemma CrashedStageUndone(s: State, i: nat, intent: Intent, file: File, stamp: nat, aside: Name)
    requires Inv(s) && Stageable(s, i, intent, file) && !intent.authority && aside.SetAside? && aside !in s.used
    ensures LegalRun(s, StagePlan(i, intent, file, stamp)[..2])
    ensures var crashed := Run(s, StagePlan(i, intent, file, stamp)[..2]);
            && i in crashed.intents
            && LegalRun(crashed, ReconcilePlan(crashed, i, aside, stamp))
            && var t := Run(crashed, ReconcilePlan(crashed, i, aside, stamp));
            && t.intents == s.intents && t.rows == s.rows
            && intent.final !in t.outbox && intent.temporary !in t.outbox
  {
    StageRuns(s, i, intent, file, stamp, 2);
    NamesUsed(s);
    hide Inv;
    UndoIntent(s, i, intent, file, stamp, aside);
  }

  lemma UndoIntent(s: State, i: nat, intent: Intent, file: File, stamp: nat, aside: Name)
    requires s.outbox.Keys <= s.used && Stageable(s, i, intent, file) && aside.SetAside? && aside !in s.used && !intent.authority
    ensures var crashed := Staged(s, i, intent, file, stamp, 2);
            && LegalRun(crashed, ReconcilePlan(crashed, i, aside, stamp))
            && var t := Run(crashed, ReconcilePlan(crashed, i, aside, stamp));
            && t.intents == s.intents && t.rows == s.rows
            && intent.final !in t.outbox && intent.temporary !in t.outbox
  {
    var crashed := Staged(s, i, intent, file, stamp, 2);
    assert ReconcilePlan(crashed, i, aside, stamp) == [SetAsideFile(intent.temporary, aside), DropIntent(i)];
    RunTwo(crashed, SetAsideFile(intent.temporary, aside), DropIntent(i));
    assert crashed.intents - {i} == s.intents;
  }

  lemma StageCutOff(s: State, i: nat, intent: Intent, file: File, stamp: nat, k: nat, aside: Name)
    requires s.outbox.Keys <= s.used && Stageable(s, i, intent, file) && 2 <= k < 5 && (intent.authority || k >= 3)
    ensures ReconcilePlan(Staged(s, i, intent, file, stamp, k), i, aside, stamp) == StagePlan(i, intent, file, stamp)[k..]
  {
    var t := Staged(s, i, intent, file, stamp, k);
    if k == 2 {
      assert ReconcilePlan(t, i, aside, stamp) == [Publish(i), InsertRow(i, stamp), DropIntent(i)];
    } else if k == 3 {
      assert ReconcilePlan(t, i, aside, stamp) == [InsertRow(i, stamp)] + [] + [DropIntent(i)];
    } else {
      assert ReconcilePlan(t, i, aside, stamp) == [] + [] + [DropIntent(i)];
    }
  }

  /** Recovery of any live intent in any reachable state: a refused one is left as it is, every other
      one is dropped, and the row it names exists afterwards exactly when it did before, or the final
      name was published, or the intent carries capture authority. */
  lemma ReconcileOutcome(s: State, i: nat, aside: Name, stamp: nat)
    requires Inv(s) && i in s.intents && aside.SetAside? && aside !in s.used
    ensures LegalRun(s, ReconcilePlan(s, i, aside, stamp))
    ensures if Refused(s, i) then Run(s, ReconcilePlan(s, i, aside, stamp)) == s
            else Reconciled(s, Run(s, ReconcilePlan(s, i, aside, stamp)), s.intents[i], i)
  {
    assert IntentOk(s, i);
    assert aside !in s.outbox;
    hide Inv;
    if s.intents[i].final in s.outbox {
      PublishedReconciles(s, i, aside, stamp);
    } else if !Refused(s, i) {
      UnpublishedReconciles(s, i, aside, stamp);
    }
  }

  ghost predicate Reconciled(s: State, t: State, intent: Intent, i: nat) {
    && t.intents == s.intents - {i} && intent.temporary !in t.outbox
    && (intent.artifact in t.rows <==> intent.artifact in s.rows || intent.final in s.outbox || intent.authority)
    && (intent.artifact in t.rows ==> t.rows[intent.artifact].body == intent.body && t.rows[intent.artifact].task == intent.task)
  }

  lemma PublishedReconciles(s: State, i: nat, aside: Name, stamp: nat)
    requires i in s.intents && IntentOk(s, i) && s.intents[i].final in s.outbox
    ensures LegalRun(s, ReconcilePlan(s, i, aside, stamp))
    ensures Reconciled(s, Run(s, ReconcilePlan(s, i, aside, stamp)), s.intents[i], i)
  {
    if s.intents[i].artifact in s.rows {
      assert ReconcilePlan(s, i, aside, stamp) == [DropIntent(i)];
      RunOne(s, DropIntent(i));
    } else {
      assert ReconcilePlan(s, i, aside, stamp) == [InsertRow(i, stamp), DropIntent(i)];
      RunTwo(s, InsertRow(i, stamp), DropIntent(i));
    }
  }

  lemma UnpublishedReconciles(s: State, i: nat, aside: Name, stamp: nat)
    requires i in s.intents && IntentOk(s, i) && s.intents[i].final !in s.outbox && !Refused(s, i)
    requires aside.SetAside? && aside !in s.used && aside !in s.outbox
    ensures LegalRun(s, ReconcilePlan(s, i, aside, stamp))
    ensures Reconciled(s, Run(s, ReconcilePlan(s, i, aside, stamp)), s.intents[i], i)
  {
    var intent := s.intents[i];
    if intent.temporary !in s.outbox {
      RunOne(s, DropIntent(i));
    } else if intent.authority {
      RunThree(s, Publish(i), InsertRow(i, stamp), DropIntent(i));
    } else {
      RunTwo(s, SetAsideFile(intent.temporary, aside), DropIntent(i));
    }
  }

  /** Recovery of one intent leaves every other intent's bytes where they are. */
  ghost predicate OthersKept(s: State, t: State, i: nat, aside: Name) {
    && t.strays == s.strays && t.used <= s.used + {aside}
    && (forall j | j in s.intents && j != i :: j in t.intents && t.intents[j] == s.intents[j] && (Refused(t, j) <==> Refused(s, j)))
  }

  /** A write that recovery of intent i makes. */
  predicate Touches(w: Write, i: nat, temporary: Name, aside: Name) {
    || (w.InsertRow? && w.i == i) || (w.DropIntent? && w.i == i) || (w.Publish? && w.i == i)
    || (w.SetAsideFile? && w.name == temporary && w.aside == aside)
  }

  predicate NamesApart(a: Intent, b: Intent) {
    && a.temporary.Staging? && b.temporary.Staging? && a.final.Final? && b.final.Final?
    && a.temporary != b.temporary && a.final != b.final
  }

  lemma WriteKeepsOther(s: State, w: Write, i: nat, intent: Intent, aside: Name, j: nat)
    requires Legal(s, w) && Touches(w, i, intent.temporary, aside) && aside.SetAside?
    requires i in s.intents ==> s.intents[i] == intent
    requires j in s.intents && j != i && NamesApart(intent, s.intents[j])
    ensures var t := Apply(s, w);
            j in t.intents && t.intents[j] == s.intents[j] && (Refused(t, j) <==> Refused(s, j))
  {
  }

  lemma WriteKeepsStrays(s: State, w: Write, i: nat, intent: Intent, aside: Name)
    requires Legal(s, w) && Touches(w, i, intent.temporary, aside)
    requires i in s.intents ==> s.intents[i] == intent
    ensures var t := Apply(s, w);
            t.strays == s.strays && t.used <= s.used + {aside} && (i in t.intents ==> t.intents[i] == intent)
  {
  }

  lemma {:induction false} RunKeepsOthers(s: State, ws: seq<Write>, i: nat, intent: Intent, aside: Name)
    requires LegalRun(s, ws) && aside.SetAside? && forall k | 0 <= k < |ws| :: Touches(ws[k], i, intent.temporary, aside)
    requires i in s.intents ==> s.intents[i] == intent
    requires forall j | j in s.intents && j != i :: NamesApart(intent, s.intents[j])
    ensures OthersKept(s, Run(s, ws), i, aside)
    decreases |ws|
  {
    if ws != [] {
      var t := Apply(s, ws[0]);
      assert Touches(ws[0], i, intent.temporary, aside);
      WriteKeepsStrays(s, ws[0], i, intent, aside);
      forall j | j in s.intents && j != i
        ensures j in t.intents && t.intents[j] == s.intents[j] && (Refused(t, j) <==> Refused(s, j))
      {
        WriteKeepsOther(s, ws[0], i, intent, aside, j);
      }
      hide Legal, Apply, Refused, Touches;
      forall j | j in t.intents && j != i ensures NamesApart(intent, t.intents[j]) {
        WriteAddsNoIntent(s, ws[0], i, intent, aside, j);
      }
      RunKeepsOthers(t, ws[1..], i, intent, aside);
    }
  }

  lemma WriteAddsNoIntent(s: State, w: Write, i: nat, intent: Intent, aside: Name, j: nat)
    requires Legal(s, w) && Touches(w, i, intent.temporary, aside) && j in Apply(s, w).intents
    ensures j in s.intents && s.intents[j] == Apply(s, w).intents[j]
  {
  }

  lemma ReconcileKeepsOthers(s: State, i: nat, aside: Name, stamp: nat)
    requires Inv(s) && i in s.intents && aside.SetAside? && aside !in s.used
    ensures LegalRun(s, ReconcilePlan(s, i, aside, stamp))
    ensures OthersKept(s, Run(s, ReconcilePlan(s, i, aside, stamp)), i, aside)
  {
    ReconcileOutcome(s, i, aside, stamp);
    hide RowsOk, OperationsOk, FilesOk, Legal, Apply, LegalRun, Run;
    forall j | j in s.intents && j != i ensures NamesApart(s.intents[i], s.intents[j]) {
      assert IntentOk(s, i) && IntentOk(s, j);
    }
    RunKeepsOthers(s, ReconcilePlan(s, i, aside, stamp), i, s.intents[i], aside);
  }

  /** However far recovery of a version 2 intent gets, the intent is there or its row is. */
  lemma AuthorityNeverDiscarded(s: State, i: nat, aside: Name, stamp: nat, k: nat)
    requires Inv(s) && i in s.intents && s.intents[i].authority && aside.SetAside? && aside !in s.used
    requires k <= |ReconcilePlan(s, i, aside, stamp)|
    ensures LegalRun(s, ReconcilePlan(s, i, aside, stamp)[..k])
    ensures var t := Run(s, ReconcilePlan(s, i, aside, stamp)[..k]);
            i in t.intents || s.intents[i].artifact in t.rows
  {
    ReconcileOutcome(s, i, aside, stamp);
    var ws := ReconcilePlan(s, i, aside, stamp);
    assert ws[..k] + ws[k..] == ws;
    RunSplit(s, ws[..k], ws[k..]);
    if k < |ws| {
      StillThere(s, ws[..k], i);
    } else {
      assert ws[..k] == ws;
    }
  }

  lemma {:induction false} StillThere(s: State, ws: seq<Write>, i: nat)
    requires LegalRun(s, ws) && i in s.intents
    requires forall k | 0 <= k < |ws| :: !ws[k].DropIntent? && !ws[k].StrayIntent?
    ensures i in Run(s, ws).intents
    decreases |ws|
  {
    if ws != [] {
      StillThere(Apply(s, ws[0]), ws[1..], i);
    }
  }

  /** A version 2 intent whose row exists is refused exactly when a prune has already moved the bytes
      of that row; only dropping the intent before the row can be pruned avoids it. */
  lemma RefusedIffPruned(s: State, i: nat)
    requires Inv(s) && i in s.intents && s.intents[i].authority && s.intents[i].artifact in s.rows
    ensures Refused(s, i) <==> Moved(s, s.intents[i].artifact)
  {
    assert IntentOk(s, i);
  }

  /** The refusal is reachable: the stage is complete but for dropping its intent, the upload is
      confirmed, and the row is pruned.  The row is intact, and recovery refuses the intent. */
  lemma PrunedUnderLiveIntent()
    ensures exists s, i ::
              && Reachable(s) && i in s.intents && s.intents[i].authority && s.intents[i].artifact in s.rows
              && Refused(s, i) && s.active == {}
  {
    hide Legal, Apply, LegalRun, Run, Inv;
    var file := File(1, Body(1, 7));
    var intent := Intent(Staging(1), Final(2), 5, 6, 8, Body(1, 7), true);
    var confirmed, ws := StagedAndConfirmed(file, intent);
    var op := NewOperation(confirmed, 5, PruneQuarantine(3));
    PruneEffect(confirmed, 5, 0, PruneQuarantine(3));
    var prune := PrunePlan(0, op);
    RunAppend(EMPTY, ws, prune);
    var s := Run(confirmed, prune);
    assert LegalRun(EMPTY, ws + prune) && Run(EMPTY, ws + prune) == s;
    RunKeepsIntents(confirmed, prune, 9);
    assert Reachable(s);
    assert Refused(s, 9);
  }

  lemma StagedAndConfirmed(file: File, intent: Intent) returns (s: State, ws: seq<Write>)
    requires file == File(1, Body(1, 7)) && intent == Intent(Staging(1), Final(2), 5, 6, 8, Body(1, 7), true)
    ensures LegalRun(EMPTY, ws) && Run(EMPTY, ws) == s && Inv(s)
    ensures s.intents == map[9 := intent] && s.rows == map[5 := Row(Final(2), Body(1, 7), 6, true, 1)] && s.outbox == map[Final(2) := file]
    ensures s.operations == map[] && s.active == {} && PruneQuarantine(3) !in s.used
  {
    hide Inv, LegalRun, Run;
    InitialInv();
    StageRuns(EMPTY, 9, intent, file, 0, 4);
    var staged := Staged(EMPTY, 9, intent, file, 0, 4);
    s, ws := Apply(staged, ConfirmUpload(5, 1)), StagePlan(9, intent, file, 0)[..4] + [ConfirmUpload(5, 1)];
    RunOne(staged, ConfirmUpload(5, 1));
    RunAppend(EMPTY, StagePlan(9, intent, file, 0)[..4], [ConfirmUpload(5, 1)]);
    RunKeepsInv(EMPTY, ws);
  }

  lemma {:induction false} RunKeepsIntents(s: State, ws: seq<Write>, i: nat)
    requires LegalRun(s, ws) && i in s.intents
    requires forall k | 0 <= k < |ws| :: !ws[k].WriteIntent? && !ws[k].DropIntent? && !ws[k].StrayIntent?
    ensures Run(s, ws).intents == s.intents
    decreases |ws|
  {
    if ws != [] {
      RunKeepsIntents(Apply(s, ws[0]), ws[1..], i);
    }
  }

  /** An abort before publication leaves no final name and no row, and touches nothing else's. */
  lemma AbortLeavesNothing(s: State, i: nat, intent: Intent, file: File, stamp: nat, k: nat, aside: Name)
    requires Inv(s) && Stageable(s, i, intent, file) && 1 <= k <= 2 && aside.SetAside? && aside !in s.used
    ensures var begun := StagePlan(i, intent, file, stamp)[..k];
            && LegalRun(s, begun)
            && LegalRun(Run(s, begun), AbortPlan(i, intent, k == 2, aside))
            && AbortedTo(s, Run(Run(s, begun), AbortPlan(i, intent, k == 2, aside)), i, intent, k == 2)
  {
    StageRuns(s, i, intent, file, stamp, k);
    NamesUsed(s);
    hide Inv;
    if k == 2 {
      AbortWithIntent(s, i, intent, file, stamp, aside);
    } else {
      AbortWithoutIntent(s, i, intent, file, stamp, aside);
    }
  }

  /** The writes of a stage are legal wherever it is caught, and leave its intent as a stray exactly when
      it is caught with the intent written. */
  lemma StageWritesRun(s: State, caught: Checkpoint, i: nat, intent: Intent, file: File, stamp: nat, aside: Name)
    requires Inv(s) && Stageable(s, i, intent, file) && aside.SetAside? && aside !in s.used
    ensures LegalRun(s, StageWrites(caught, i, intent, file, stamp, aside))
    ensures Run(s, StageWrites(caught, i, intent, file, stamp, aside)).strays == if caught.Ready? || caught.BeginCommit? then {i} else {}
  {
    hide Inv, Legal, Apply, LegalRun, Run;
    var plan := StagePlan(i, intent, file, stamp);
    if caught == Never {
      StageRuns(s, i, intent, file, stamp, 5);
      assert plan[..5] == plan;
    } else {
      var k := if caught == Copying then 1 else 2;
      AbortLeavesNothing(s, i, intent, file, stamp, k, aside);
      RunAppend(s, plan[..k], AbortPlan(i, intent, k == 2, aside));
      assert StageWrites(caught, i, intent, file, stamp, aside) == plan[..k] + AbortPlan(i, intent, k == 2, aside);
    }
  }

  ghost predicate AbortedTo(s: State, t: State, i: nat, intent: Intent, intentWritten: bool) {
    && t.rows == s.rows && t.intents == s.intents
    && intent.final !in t.outbox && intent.temporary !in t.outbox
    && (forall n | n in s.outbox :: n in t.outbox && t.outbox[n] == s.outbox[n])
    && (t.strays == if intentWritten then s.strays + {i} else s.strays)
  }

  lemma AbortWithIntent(s: State, i: nat, intent: Intent, file: File, stamp: nat, aside: Name)
    requires s.outbox.Keys <= s.used && Stageable(s, i, intent, file) && aside.SetAside? && aside !in s.used
    ensures LegalRun(Staged(s, i, intent, file, stamp, 2), AbortPlan(i, intent, true, aside))
    ensures AbortedTo(s, Run(Staged(s, i, intent, file, stamp, 2), AbortPlan(i, intent, true, aside)), i, intent, true)
  {
    var begun := Staged(s, i, intent, file, stamp, 2);
    assert AbortPlan(i, intent, true, aside) == [SetAsideFile(intent.temporary, aside), StrayIntent(i)];
    RunTwo(begun, SetAsideFile(intent.temporary, aside), StrayIntent(i));
    assert begun.intents - {i} == s.intents;
  }

  lemma AbortWithoutIntent(s: State, i: nat, intent: Intent, file: File, stamp: nat, aside: Name)
    requires s.outbox.Keys <= s.used && Stageable(s, i, intent, file) && aside.SetAside? && aside !in s.used
    ensures LegalRun(Staged(s, i, intent, file, stamp, 1), AbortPlan(i, intent, false, aside))
    ensures AbortedTo(s, Run(Staged(s, i, intent, file, stamp, 1), AbortPlan(i, intent, false, aside)), i, intent, false)
  {
    assert AbortPlan(i, intent, false, aside) == [SetAsideFile(intent.temporary, aside)];
    RunOne(Staged(s, i, intent, file, stamp, 1), SetAsideFile(intent.temporary, aside));
  }
}
