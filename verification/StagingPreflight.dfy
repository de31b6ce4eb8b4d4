/** The scan of the intents directory - of everything at startup, of what concerns one artifact before
    every stage - and the two ways in which an aborted stage spoils it. */
module StagingPreflight {
  import opened OutboxState
  import opened OutboxInvariant
  import opened OutboxPlans
  import opened OutboxSafety
  import opened StagingRecovery

  /** What a scan recovers. */
  datatype Subject = Everything | About(artifact: nat, execution: nat)

  predicate Concerns(subject: Subject, intent: Intent) {
    match subject
    case Everything => true
    case About(artifact, execution) => intent.artifact == artifact || intent.execution == execution
  }

  /** A scan reports every stray, whomever it was about, and every intent it recovers in vain. */
  ghost predicate ScanPasses(s: State, subject: Subject) {
    s.strays == {} && forall i | i in s.intents && Concerns(subject, s.intents[i]) :: !Refused(s, i)
  }

  /** When a stage of this artifact gets past its preflight. */
  ghost predicate PreflightPasses(s: State, artifact: nat, execution: nat) {
    ScanPasses(s, About(artifact, execution)) && (artifact in s.rows ==> s.rows[artifact].path in s.outbox)
  }

  /** In other words: nothing in the intents directory was set aside by an abort, every live capture intent of
      the same artifact or the same execution has its bytes under one of its two names, and the artifact's
      file, if it has a row, is where the row says. */
  lemma PassesIff(s: State, artifact: nat, execution: nat)
    ensures PreflightPasses(s, artifact, execution) <==>
              && s.strays == {}
              && (forall i | i in s.intents && s.intents[i].authority && (s.intents[i].artifact == artifact || s.intents[i].execution == execution) ::
                    s.intents[i].final in s.outbox || s.intents[i].temporary in s.outbox)
              && (artifact in s.rows ==> s.rows[artifact].path in s.outbox)
  {
    forall i | i in s.intents
      ensures Concerns(About(artifact, execution), s.intents[i]) && Refused(s, i) <==>
                && s.intents[i].authority && (s.intents[i].artifact == artifact || s.intents[i].execution == execution)
                && s.intents[i].final !in s.outbox && s.intents[i].temporary !in s.outbox
    {
    }
  }

  /* An abort with its intent written ends all staging. */

  lemma {:induction false} StraysNeverCleared(s: State, ws: seq<Write>)
    requires LegalRun(s, ws)
    ensures s.strays <= Run(s, ws).strays
    decreases |ws|
  {
    if ws != [] {
      StraysNeverCleared(Apply(s, ws[0]), ws[1..]);
    }
  }

  /** Once one stage was aborted with its intent written, no startup scan is clean again and no artifact
      gets past its preflight again, its own or any other, whatever is written later. */
  lemma AbortBlocksStaging(s: State, caught: Checkpoint, i: nat, intent: Intent, file: File, stamp: nat, aside: Name, later: seq<Write>, subject: Subject)
    requires caught.Ready? || caught.BeginCommit?
    requires Inv(s) && Stageable(s, i, intent, file) && aside.SetAside? && aside !in s.used
    requires LegalRun(s, StageWrites(caught, i, intent, file, stamp, aside) + later)
    ensures !ScanPasses(Run(s, StageWrites(caught, i, intent, file, stamp, aside) + later), subject)
  {
    hide Inv, Legal, Apply, LegalRun, Run;
    var begun, abort := StagePlan(i, intent, file, stamp)[..2], AbortPlan(i, intent, true, aside);
    AbortLeavesNothing(s, i, intent, file, stamp, 2, aside);
    RunAppend(s, begun, abort);
    assert StageWrites(caught, i, intent, file, stamp, aside) == begun + abort;
    RunSplit(s, begun + abort, later);
    var t := Run(s, begun + abort);
    assert i in t.strays;
    StraysNeverCleared(t, later);
  }

  /** So an agent whose very first stage is cancelled before it commits stages nothing from then on. */
  lemma FirstAbortBlocksAll(intent: Intent, file: File, aside: Name, later: seq<Write>, artifact: nat, execution: nat)
    requires intent.temporary.Staging? && intent.final.Final? && file.body == intent.body && aside.SetAside?
    ensures LegalRun(EMPTY, StageWrites(Ready, 0, intent, file, 0, aside))
    ensures LegalRun(EMPTY, StageWrites(Ready, 0, intent, file, 0, aside) + later) ==>
              !PreflightPasses(Run(EMPTY, StageWrites(Ready, 0, intent, file, 0, aside) + later), artifact, execution)
  {
    InitialInv();
    hide Inv, Legal, Apply, LegalRun, Run;
    StageWritesRun(EMPTY, Ready, 0, intent, file, 0, aside);
    if LegalRun(EMPTY, StageWrites(Ready, 0, intent, file, 0, aside) + later) {
      AbortBlocksStaging(EMPTY, Ready, 0, intent, file, 0, aside, later, About(artifact, execution));
    }
  }

  /* A crash inside the cleanup of an abort leaves an intent without its bytes. */

  function SetAsideNames(ws: seq<Write>): (names: set<Name>)
    decreases |ws|
  {
    if ws == [] then {} else (if ws[0].SetAsideFile? then {ws[0].name} else {}) + SetAsideNames(ws[1..])
  }

  /** Every intent's bytes are accounted for: its temporary is there, or was set aside before it was
      published, or its final name is there or its row was inserted. */
  ghost predicate Accounted(s: State, aside: set<Name>) {
    && (forall n | n in aside :: n.Staging? && n in s.used && n !in s.outbox)
    && (forall i | i in s.intents :: IntentAccounted(s, aside, s.intents[i]))
  }

  ghost predicate IntentAccounted(s: State, aside: set<Name>, intent: Intent) {
    && (intent.temporary in aside ==> intent.final !in s.outbox && intent.artifact !in s.rows)
    && (intent.temporary !in aside && intent.temporary !in s.outbox ==> intent.final in s.outbox || intent.artifact in s.rows)
  }

  function AsideAfter(aside: set<Name>, w: Write): (names: set<Name>) {
    aside + if w.SetAsideFile? then {w.name} else {}
  }

  lemma WriteAccounted(s: State, w: Write, aside: set<Name>)
    requires Inv(s) && Legal(s, w) && Accounted(s, aside)
    ensures Accounted(Apply(s, w), AsideAfter(aside, w))
  {
    hide Inv, Legal, Apply, IntentAccounted;
    var t, all := Apply(s, w), AsideAfter(aside, w);
    forall n | n in all ensures n.Staging? && n in t.used && n !in t.outbox {
      if n !in aside {
        StagingSetAside(s, w);
      }
      GoneStays(s, w, n);
    }
    forall i | i in t.intents ensures IntentAccounted(t, all, t.intents[i]) {
      if i in s.intents {
        IntentStaysAccounted(s, w, aside, i);
      } else {
        NewIntentAccounted(s, w, aside, i);
      }
    }
  }

  lemma StagingSetAside(s: State, w: Write)
    requires Legal(s, w) && w.SetAsideFile?
    ensures w.name.Staging?
  {
  }

  lemma NewIntentAccounted(s: State, w: Write, aside: set<Name>, i: nat)
    requires Inv(s) && Legal(s, w) && Accounted(s, aside) && i in Apply(s, w).intents && i !in s.intents
    ensures IntentAccounted(Apply(s, w), AsideAfter(aside, w), Apply(s, w).intents[i])
  {
    hide Inv;
  }

  lemma GoneStays(s: State, w: Write, n: Name)
    requires Inv(s) && Legal(s, w) && n.Staging?
    requires (n in s.used && n !in s.outbox) || (w.SetAsideFile? && n == w.name)
    ensures n in Apply(s, w).used && n !in Apply(s, w).outbox
  {
    assert w.Publish? ==> IntentOk(s, w.i);
    assert w.Move? ==> OperationOk(s, w.o);
    hide Inv, RowOk;
  }

  /** The writes that move files or add rows. */
  predicate Moves(w: Write) {
    w.WriteTemporary? || w.Publish? || w.InsertRow? || w.SetAsideFile? || w.Move?
  }

  /** What a write that moves files or adds rows knows about an intent's names. */
  ghost predicate NamesKnown(s: State, w: Write, intent: Intent) {
    && intent.temporary.Staging? && intent.final.Final? && intent.temporary in s.used
    && (intent.temporary in s.outbox ==> intent.final !in s.outbox && intent.artifact !in s.rows)
    && (w.Publish? || w.InsertRow? ==>
          w.i in s.intents && (s.intents[w.i] == intent || (NamesApart(intent, s.intents[w.i]) && intent.artifact != s.intents[w.i].artifact)))
    && (w.Move? ==>
          w.o in s.operations && s.operations[w.o].original.Final? && s.operations[w.o].quarantine.PruneQuarantine?
          && (s.operations[w.o].original == intent.final ==> intent.artifact in s.rows))
  }

  lemma KnowNames(s: State, w: Write, i: nat)
    requires Inv(s) && Legal(s, w) && i in s.intents
    ensures NamesKnown(s, w, s.intents[i])
  {
    assert IntentOk(s, i);
    if w.Publish? || w.InsertRow? {
      IntentsApart(s, i, w.i);
    }
    if w.Move? {
      assert OperationOk(s, w.o);
    }
    hide RowsOk, NamesOk, FilesOk;
  }

  lemma OtherWrite(s: State, w: Write, i: nat)
    requires Legal(s, w) && i in s.intents && !Moves(w)
    ensures Apply(s, w).outbox == s.outbox && Apply(s, w).rows.Keys == s.rows.Keys
    ensures i in Apply(s, w).intents ==> Apply(s, w).intents[i] == s.intents[i]
    ensures w != DropIntent(i) && w != StrayIntent(i) ==> i in Apply(s, w).intents
  {
  }

  lemma MovingWrite(s: State, w: Write, i: nat)
    requires Legal(s, w) && i in s.intents && Moves(w)
    ensures Apply(s, w).intents == s.intents
  {
  }

  lemma IntentStaysAccounted(s: State, w: Write, aside: set<Name>, i: nat)
    requires Inv(s) && Legal(s, w) && i in s.intents && IntentAccounted(s, aside, s.intents[i]) && i in Apply(s, w).intents
    requires s.intents[i].temporary in aside ==> s.intents[i].temporary !in s.outbox
    ensures IntentAccounted(Apply(s, w), AsideAfter(aside, w), Apply(s, w).intents[i])
  {
    KnowNames(s, w, i);
    hide Inv;
    if Moves(w) {
      MovingWrite(s, w, i);
      MovedAccounted(s, w, aside, s.intents[i]);
    } else {
      OtherWrite(s, w, i);
      hide Legal, Apply, NamesKnown;
    }
  }

  lemma MovedAccounted(s: State, w: Write, aside: set<Name>, intent: Intent)
    requires Legal(s, w) && Moves(w) && NamesKnown(s, w, intent) && IntentAccounted(s, aside, intent)
    requires intent.temporary in aside ==> intent.temporary !in s.outbox
    requires w.WriteTemporary? && w.name == intent.temporary ==> w.name in s.outbox
    ensures IntentAccounted(Apply(s, w), AsideAfter(aside, w), intent)
  {
  }

  lemma IntentsApart(s: State, i: nat, j: nat)
    requires Inv(s) && i in s.intents && j in s.intents
    ensures IntentOk(s, i) && IntentOk(s, j)
    ensures i != j ==> NamesApart(s.intents[i], s.intents[j]) && s.intents[i].artifact != s.intents[j].artifact
  {
  }

  lemma {:induction false} RunAccounted(s: State, ws: seq<Write>, aside: set<Name>)
    requires Inv(s) && LegalRun(s, ws) && Accounted(s, aside)
    ensures Accounted(Run(s, ws), aside + SetAsideNames(ws))
    decreases |ws|
  {
    hide Inv, Legal, Apply, Accounted;
    if ws == [] {
      assert aside + {} == aside;
    } else {
      LegalWriteKeepsInv(s, ws[0]);
      WriteAccounted(s, ws[0], aside);
      RunAccounted(Apply(s, ws[0]), ws[1..], AsideAfter(aside, ws[0]));
      assert AsideAfter(aside, ws[0]) + SetAsideNames(ws[1..]) == aside + SetAsideNames(ws);
    }
  }

  /** The other refusal.  In every run, a version 2 intent whose row does not exist is refused if and only
      if its temporary was set aside, which only the cleanup of an abort does to a temporary whose
      version 2 intent is live: the process was stopped before it came to the intent. */
  lemma RefusedIffSetAside(ws: seq<Write>, i: nat)
    requires LegalRun(EMPTY, ws)
    requires var s := Run(EMPTY, ws); i in s.intents && s.intents[i].authority && s.intents[i].artifact !in s.rows
    ensures var s := Run(EMPTY, ws); Refused(s, i) <==> s.intents[i].temporary in SetAsideNames(ws)
  {
    InitialInv();
    RunAccounted(EMPTY, ws, {});
    var s := Run(EMPTY, ws);
    assert {} + SetAsideNames(ws) == SetAsideNames(ws);
    assert IntentAccounted(s, SetAsideNames(ws), s.intents[i]);
  }

  /** Such an intent is refused for good: recovery writes nothing for it, and nothing else brings its bytes
      or its row. */
  lemma {:induction false} RefusedForGood(s: State, ws: seq<Write>, i: nat)
    requires Inv(s) && LegalRun(s, ws) && i in s.intents && Refused(s, i) && s.intents[i].artifact !in s.rows
    requires DropIntent(i) !in ws && StrayIntent(i) !in ws
    ensures var t := Run(s, ws);
            && i in t.intents && Refused(t, i) && t.intents[i].artifact !in t.rows
            && forall aside, stamp :: ReconcilePlan(t, i, aside, stamp) == []
    decreases |ws|
  {
    if ws != [] {
      LegalWriteKeepsInv(s, ws[0]);
      hide Inv;
      RefusedStays(s, ws[0], i);
      hide Legal, Apply, Refused;
      RefusedForGood(Apply(s, ws[0]), ws[1..], i);
    }
  }

  lemma RefusedStays(s: State, w: Write, i: nat)
    requires Inv(s) && Legal(s, w) && i in s.intents && Refused(s, i) && s.intents[i].artifact !in s.rows
    requires w != DropIntent(i) && w != StrayIntent(i)
    ensures var t := Apply(s, w); i in t.intents && t.intents[i] == s.intents[i] && Refused(t, i) && t.intents[i].artifact !in t.rows
  {
    KnowNames(s, w, i);
    hide Inv;
    if Moves(w) {
      MovingWrite(s, w, i);
      BytelessStays(s, w, s.intents[i]);
    } else {
      OtherWrite(s, w, i);
      hide Legal, Apply, NamesKnown;
    }
  }

  lemma BytelessStays(s: State, w: Write, intent: Intent)
    requires Legal(s, w) && Moves(w) && NamesKnown(s, w, intent)
    requires intent.temporary !in s.outbox && intent.final !in s.outbox && intent.artifact !in s.rows
    ensures var t := Apply(s, w); intent.temporary !in t.outbox && intent.final !in t.outbox && intent.artifact !in t.rows
  {
  }

  /** It happens to every stage with capture authority that is caught when its intent is written and then
      crashes between the two steps of its cleanup. */
  lemma CrashedAbortRefused(s: State, i: nat, intent: Intent, file: File, stamp: nat, aside: Name)
    requires Inv(s) && Stageable(s, i, intent, file) && intent.authority && aside.SetAside? && aside !in s.used
    ensures var ws := StageWrites(Ready, i, intent, file, stamp, aside);
            && |ws| == 4 && LegalRun(s, ws[..3])
            && var t := Run(s, ws[..3]);
            i in t.intents && t.intents[i] == intent && Refused(t, i) && intent.artifact !in t.rows && intent.temporary in SetAsideNames(ws[..3])
  {
    var ws := StageWrites(Ready, i, intent, file, stamp, aside);
    StageRuns(s, i, intent, file, stamp, 2);
    NamesUsed(s);
    var begun, cut := StagePlan(i, intent, file, stamp)[..2], SetAsideFile(intent.temporary, aside);
    assert ws[..3] == begun + [cut];
    CutCleanup(s, i, intent, file, stamp, aside);
    hide Inv, LegalRun, Run, Legal, Apply, Stageable, Staged, StageWrites, StagePlan;
    RunOne(Run(s, begun), cut);
    RunAppend(s, begun, [cut]);
    LastSetAside(begun, cut);
  }

  lemma {:induction false} LastSetAside(ws: seq<Write>, w: Write)
    requires w.SetAsideFile?
    ensures w.name in SetAsideNames(ws + [w])
    decreases |ws|
  {
    if ws != [] {
      assert (ws + [w])[1..] == ws[1..] + [w];
      LastSetAside(ws[1..], w);
    }
  }

  lemma CutCleanup(s: State, i: nat, intent: Intent, file: File, stamp: nat, aside: Name)
    requires Stageable(s, i, intent, file) && s.outbox.Keys <= s.used && aside.SetAside? && aside !in s.used
    ensures var begun, cut := Staged(s, i, intent, file, stamp, 2), SetAsideFile(intent.temporary, aside);
            && Legal(begun, cut)
            && var t := Apply(begun, cut);
            && i in t.intents && t.intents[i] == intent && t.rows == s.rows
            && intent.temporary !in t.outbox && intent.final !in t.outbox
  {
  }

  /** A reachable instance: the first capture of all, stopped there. */
  lemma RefusedWithoutRow()
    ensures exists s, i :: Reachable(s) && i in s.intents && s.intents[i].authority && s.intents[i].artifact !in s.rows && Refused(s, i)
  {
    InitialInv();
    hide Inv, LegalRun, Run;
    var intent, file := Intent(Staging(1), Final(2), 5, 6, 8, Body(1, 7), true), File(1, Body(1, 7));
    CrashedAbortRefused(EMPTY, 9, intent, file, 0, SetAside(3));
    var t := Run(EMPTY, StageWrites(Ready, 9, intent, file, 0, SetAside(3))[..3]);
    assert Reachable(t) && t.intents[9] == intent;
  }

  /* The scan itself. */

  datatype ScanEntry = IntentFile(i: nat) | StrayFile(i: nat)

  /** A listing of the intents directory: every intent and every stray, each once. */
  ghost predicate ScanOf(s: State, entries: seq<ScanEntry>) {
    && (forall i :: IntentFile(i) in entries <==> i in s.intents)
    && (forall i :: StrayFile(i) in entries <==> i in s.strays)
    && (forall j, k | 0 <= j < k < |entries| :: entries[j] != entries[k])
  }

  ghost predicate FreshAsides(s: State, asides: seq<Name>) {
    && (forall k | 0 <= k < |asides| :: asides[k].SetAside? && asides[k] !in s.used)
    && (forall j, k | 0 <= j < k < |asides| :: asides[j] != asides[k])
  }

  lemma NextAside(s: State, asides: seq<Name>, n: nat)
    requires n < |asides| && FreshAsides(s, asides[n..])
    ensures asides[n].SetAside? && asides[n] !in s.used && FreshAsides(s, asides[n + 1..])
  {
    assert asides[n..][0] == asides[n] && asides[n..][1..] == asides[n + 1..];
  }

  lemma NextAsides(s: State, t: State, asides: seq<Name>, n: nat)
    requires n < |asides| && FreshAsides(s, asides[n..]) && t.used <= s.used + {asides[n]}
    ensures FreshAsides(t, asides[n + 1..])
  {
    var here, rest := asides[n..], asides[n + 1..];
    assert here == [asides[n]] + rest;
    assert forall k | 0 <= k < |rest| :: rest[k] == here[k + 1] != here[0];
  }

  /** A scan that began in s has dealt with the first n entries. */
  ghost predicate Scanned(s: State, t: State, entries: seq<ScanEntry>, n: nat, subject: Subject, clean: bool)
    requires n <= |entries|
  {
    && t.strays == s.strays
    && (forall i | i in t.intents :: i in s.intents && t.intents[i] == s.intents[i] && (Refused(t, i) <==> Refused(s, i)))
    && (forall i | i in t.intents && Concerns(subject, s.intents[i]) :: IntentFile(i) in entries[n..] || Refused(s, i))
    && (forall i | i in s.intents && (IntentFile(i) in entries[n..] || Refused(s, i) || !Concerns(subject, s.intents[i])) :: i in t.intents)
    && (clean <==> forall e | e in entries[..n] :: Unobjectionable(s, subject, e))
  }

  /** An entry that a scan does not report. */
  ghost predicate Unobjectionable(s: State, subject: Subject, e: ScanEntry) {
    e.IntentFile? && (e.i in s.intents && Concerns(subject, s.intents[e.i]) ==> !Refused(s, e.i))
  }

  lemma ScanBegins(s: State, entries: seq<ScanEntry>, subject: Subject)
    requires ScanOf(s, entries)
    ensures Scanned(s, s, entries, 0, subject, true)
  {
    hide Refused;
    assert entries[0..] == entries && entries[..0] == [];
  }

  lemma NotAgain(entries: seq<ScanEntry>, n: nat)
    requires n < |entries| && forall j, k | 0 <= j < k < |entries| :: entries[j] != entries[k]
    ensures entries[n] !in entries[n + 1..]
  {
    var rest := entries[n + 1..];
    assert forall k | 0 <= k < |rest| :: rest[k] == entries[n + 1 + k];
  }

  /** The next entry is a stray, or an intent that does not concern the scan. */
  lemma ScanSkips(s: State, t: State, entries: seq<ScanEntry>, n: nat, subject: Subject, clean: bool)
    requires n < |entries| && ScanOf(s, entries) && Scanned(s, t, entries, n, subject, clean)
    requires entries[n].IntentFile? ==> entries[n].i in s.intents && !Concerns(subject, s.intents[entries[n].i])
    ensures Scanned(s, t, entries, n + 1, subject, clean && entries[n].IntentFile?)
  {
    hide Refused;
    NotAgain(entries, n);
    assert Unobjectionable(s, subject, entries[n]) <==> entries[n].IntentFile?;
    assert entries[n..] == [entries[n]] + entries[n + 1..] && entries[..n + 1] == entries[..n] + [entries[n]];
  }

  lemma ScanIntent(s: State, t: State, entries: seq<ScanEntry>, n: nat, subject: Subject, clean: bool)
    requires n < |entries| && entries[n].IntentFile? && ScanOf(s, entries) && Scanned(s, t, entries, n, subject, clean)
    ensures entries[n].i in s.intents && entries[n].i in t.intents && t.intents[entries[n].i] == s.intents[entries[n].i]
  {
    hide Refused;
    assert entries[n] in entries[n..] && entries[n] in entries;
  }

  lemma ScanReconciled(s: State, t: State, u: State, entries: seq<ScanEntry>, n: nat, subject: Subject, clean: bool, aside: Name)
    requires n < |entries| && entries[n].IntentFile? && ScanOf(s, entries) && Scanned(s, t, entries, n, subject, clean)
    requires var i := entries[n].i;
             && i in t.intents && OthersKept(t, u, i, aside)
             && (if Refused(t, i) then u == t else u.intents == t.intents - {i})
    requires Concerns(subject, t.intents[entries[n].i])
    ensures Scanned(s, u, entries, n + 1, subject, clean && !Refused(t, entries[n].i))
  {
    NotAgain(entries, n);
    assert Unobjectionable(s, subject, entries[n]) <==> !Refused(t, entries[n].i);
    hide Refused, Concerns, Unobjectionable, ScanOf;
    assert entries[n..] == [entries[n]] + entries[n + 1..] && entries[..n + 1] == entries[..n] + [entries[n]];
  }

  lemma ScanEnds(s: State, t: State, entries: seq<ScanEntry>, subject: Subject, clean: bool)
    requires ScanOf(s, entries) && Scanned(s, t, entries, |entries|, subject, clean)
    ensures t.strays == s.strays && (clean <==> ScanPasses(s, subject))
    ensures forall i :: i in t.intents <==> i in s.intents && (Refused(s, i) || !Concerns(subject, s.intents[i]))
    ensures forall i | i in t.intents :: t.intents[i] == s.intents[i] && (Refused(t, i) <==> Refused(s, i))
  {
    hide Refused;
    assert entries[..|entries|] == entries;
    if clean {
      assert forall i | i in s.strays :: StrayFile(i) in entries && !Unobjectionable(s, subject, StrayFile(i));
      assert s.strays == {};
      forall i | i in s.intents && Concerns(subject, s.intents[i]) ensures !Refused(s, i) {
        assert IntentFile(i) in entries && Unobjectionable(s, subject, IntentFile(i));
      }
    }
    if ScanPasses(s, subject) {
      forall e | e in entries ensures Unobjectionable(s, subject, e) {
        assert e == if e.StrayFile? then StrayFile(e.i) else IntentFile(e.i);
      }
    }
  }

  /* What a scan leaves alone. */

  /** Recovery of intents keeps the rows and where their files are, adds rows only with their file in place,
      and creates no file. */
  ghost predicate FilesKept(s: State, t: State) {
    && (forall r | r in s.rows :: r in t.rows && t.rows[r] == s.rows[r] && (t.rows[r].path in t.outbox <==> s.rows[r].path in s.outbox))
    && (forall r | r in t.rows && r !in s.rows :: t.rows[r].path in t.outbox)
    && (forall n | n in t.used && n !in s.used :: n.SetAside?)
    && (forall x | x in Inodes(t) :: x in Inodes(s))
  }

  ghost function Inodes(s: State): (inodes: set<nat>) {
    (set n | n in s.outbox :: s.outbox[n].inode) + (set r | r in s.born :: s.born[r].inode)
  }

  lemma FilesKeptOn(s: State, t: State, u: State)
    requires FilesKept(s, t) && FilesKept(t, u)
    ensures FilesKept(s, u)
  {
    hide Inodes;
  }

  lemma NothingKept(s: State)
    ensures FilesKept(s, s)
  {
  }

  /** A write of the recovery of one intent, where no row is at a temporary name. */
  lemma WriteKeepsFiles(s: State, w: Write, aside: Name)
    requires Legal(s, w) && (w.InsertRow? || w.DropIntent? || w.Publish? || (w.SetAsideFile? && w.aside == aside)) && aside.SetAside?
    requires forall r | r in s.rows :: s.rows[r].path.Final? || s.rows[r].path.PruneQuarantine?
    requires w.Publish? ==> s.intents[w.i].temporary.Staging? && s.intents[w.i].final in s.used && forall r | r in s.rows :: s.rows[r].path != s.intents[w.i].final
    ensures FilesKept(s, Apply(s, w))
  {
    var t := Apply(s, w);
    forall x | x in Inodes(t) ensures x in Inodes(s) {
      InodeStays(s, w, x);
    }
    hide Inodes;
  }

  lemma InodeStays(s: State, w: Write, x: nat)
    requires Legal(s, w) && (w.InsertRow? || w.DropIntent? || w.Publish? || w.SetAsideFile?) && x in Inodes(Apply(s, w))
    ensures x in Inodes(s)
  {
  }

  lemma RecoveryKeepsFiles(s: State, w: Write, i: nat, temporary: Name, aside: Name)
    requires Inv(s) && Legal(s, w) && Touches(w, i, temporary, aside) && aside.SetAside?
    ensures FilesKept(s, Apply(s, w))
  {
    forall r | r in s.rows ensures s.rows[r].path.Final? || s.rows[r].path.PruneQuarantine? {
      assert RowOk(s, r);
    }
    if w.Publish? {
      assert IntentOk(s, i);
    }
    hide RowOk, IntentOk, OperationsOk, FilesOk, FilesKept;
    WriteKeepsFiles(s, w, aside);
  }

  lemma {:induction false} RunKeepsFiles(s: State, ws: seq<Write>, i: nat, temporary: Name, aside: Name)
    requires Inv(s) && LegalRun(s, ws) && aside.SetAside? && forall k | 0 <= k < |ws| :: Touches(ws[k], i, temporary, aside)
    ensures FilesKept(s, Run(s, ws))
    decreases |ws|
  {
    hide Inv, Legal, Apply, FilesKept, Touches;
    if ws == [] {
      NothingKept(s);
    } else {
      LegalWriteKeepsInv(s, ws[0]);
      RecoveryKeepsFiles(s, ws[0], i, temporary, aside);
      RunKeepsFiles(Apply(s, ws[0]), ws[1..], i, temporary, aside);
      FilesKeptOn(s, Apply(s, ws[0]), Run(s, ws));
    }
  }

  lemma ReconcileKeepsFiles(s: State, i: nat, aside: Name, stamp: nat)
    requires Inv(s) && i in s.intents && aside.SetAside? && LegalRun(s, ReconcilePlan(s, i, aside, stamp))
    ensures FilesKept(s, Run(s, ReconcilePlan(s, i, aside, stamp)))
  {
    hide Inv, LegalRun, Run, FilesKept;
    RunKeepsFiles(s, ReconcilePlan(s, i, aside, stamp), i, s.intents[i].temporary, aside);
  }

  /** A preflight that passed, and found no row, leaves everything a stage needs. */
  lemma PassedIsStageable(s: State, t: State, i: nat, intent: Intent, file: File)
    requires ScanPasses(s, About(intent.artifact, intent.execution)) && FilesKept(s, t) && t.strays == s.strays && intent.artifact !in t.rows
    requires forall j :: j in t.intents <==> j in s.intents && (Refused(s, j) || !Concerns(About(intent.artifact, intent.execution), s.intents[j]))
    requires forall j | j in t.intents :: t.intents[j] == s.intents[j]
    requires Drawn(s, i, intent, file)
    ensures Stageable(t, i, intent, file)
  {
    hide Refused;
    forall x | x in Inodes(t) ensures x in Inodes(s) {
    }
    assert file.inode !in Inodes(s);
    assert forall n | n in t.outbox :: t.outbox[n].inode in Inodes(t);
    assert forall r | r in t.born :: t.born[r].inode in Inodes(t);
  }
}
