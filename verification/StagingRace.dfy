/** The race between a staging worker and the calls that cancel it. */
module StagingRace {
  import opened OutboxState
  import opened OutboxInvariant
  import opened OutboxPlans
  import opened StagingRecovery

  datatype Phase = COPYING | READY_TO_COMMIT | COMMITTING | COMMITTED | ABORTED

  /* The transaction's methods, each one section under its lock. */

  function AfterCancel(phase: Phase): (next: Phase) {
    if phase == COPYING || phase == READY_TO_COMMIT then ABORTED else phase
  }

  /** What request_cancel answers: whether the commit has started. */
  predicate CommitStarted(phase: Phase) {
    phase == COMMITTING || phase == COMMITTED
  }

  /** ready and begin_commit: move on, or abort when not expected here, cancelled or too late. */
  function Advanced(phase: Phase, from: Phase, to: Phase, cancelled: bool, expired: bool): (next: Phase) {
    if phase != from || cancelled || expired then ABORTED else to
  }

  class StagingTransaction {
    var state: Phase
    var stop: bool

    ghost predicate Valid()
      reads this
    {
      stop <==> state == ABORTED
    }

    constructor ()
      ensures Valid() && state == COPYING
    {
      state, stop := COPYING, false;
    }

    method RequestCancel() returns (commitStarted: bool)
      requires Valid()
      modifies this
      ensures Valid() && state == AfterCancel(old(state))
      ensures commitStarted <==> CommitStarted(old(state))
    {
      if state == COPYING || state == READY_TO_COMMIT {
        state, stop := ABORTED, true;
        return false;
      }
      return state == COMMITTING || state == COMMITTED;
    }

    /** Passes only while nothing has stopped the stage; otherwise the stage is aborted if it still can be. */
    method Check(cancelled: bool, expired: bool) returns (passed: bool)
      requires Valid()
      modifies this
      ensures Valid() && (passed <==> old(state) != ABORTED && !cancelled && !expired)
      ensures state == if passed then old(state) else AfterCancel(old(state))
    {
      if state == ABORTED || cancelled || stop || expired {
        var _ := RequestCancel();
        return false;
      }
      return true;
    }

    /** Called by the worker while it copies, so never once a commit has started. */
    method Ready(cancelled: bool, expired: bool) returns (passed: bool)
      requires Valid() && !CommitStarted(state)
      modifies this
      ensures Valid() && state == Advanced(old(state), COPYING, READY_TO_COMMIT, cancelled, expired)
      ensures passed <==> old(state) == COPYING && !cancelled && !expired
      ensures state == if passed then READY_TO_COMMIT else ABORTED
    {
      if state != COPYING || cancelled || stop || expired {
        state, stop := ABORTED, true;
        return false;
      }
      state := READY_TO_COMMIT;
      return true;
    }

    method BeginCommit(cancelled: bool, expired: bool) returns (passed: bool)
      requires Valid() && !CommitStarted(state)
      modifies this
      ensures Valid() && state == Advanced(old(state), READY_TO_COMMIT, COMMITTING, cancelled, expired)
      ensures passed <==> old(state) == READY_TO_COMMIT && !cancelled && !expired
      ensures state == if passed then COMMITTING else ABORTED
    {
      if state != READY_TO_COMMIT || cancelled || stop || expired {
        state, stop := ABORTED, true;
        return false;
      }
      state := COMMITTING;
      return true;
    }

    method Committed() returns (passed: bool)
      requires Valid()
      modifies this
      ensures Valid() && (passed <==> old(state) == COMMITTING)
      ensures state == if passed then COMMITTED else old(state)
    {
      if state != COMMITTING {
        return false;
      }
      state := COMMITTED;
      return true;
    }
  }

  /* The machine: the worker's program against cancellations, the token and the clock. */

  /** What the worker does next. */
  datatype Pc =
    | Opening
    | Reading
    | Checking(sawAborted: bool)       // between the two lock sections of check
    | Cancelling                       // check raises, after its own request_cancel
    | Copied
    | Recorded
    | ReadyToCommit
    | Committing
    | Published
    | Queued
    | Dropped
    | Returned
    | CleaningFile(intentWritten: bool)
    | CleaningIntent
    | Raised

  /** The stage the worker works on. */
  datatype Job = Job(i: nat, intent: Intent, file: File, stamp: nat, aside: Name)

  datatype Race = Race(
    phase: Phase,
    token: bool,           // the cancellation token
    expired: bool,         // the deadline has passed
    pc: Pc,
    writes: seq<Write>,    // the durable writes the worker has made
    answers: seq<bool>)    // what request_cancel has answered its callers

  datatype Step =
    | Cancel               // a caller's request_cancel
    | TokenCancel
    | Expire
    | Work(endOfFile: bool)
    | Fail                 // the worker raises for a reason of its own
    | RecoverCommit        // a caller told that the commit started finds the stage recovered

  const BEGIN: Race := Race(COPYING, false, false, Opening, [], [])

  function Next(r: Race, step: Step, job: Job): (next: Race) {
    match step
    case Cancel => r.(phase := AfterCancel(r.phase), answers := r.answers + [CommitStarted(r.phase)])
    case TokenCancel => r.(token := true)
    case Expire => r.(expired := true)
    case Work(endOfFile) => Worked(r, endOfFile, job)
    case Fail => r.(pc := Failed(r.pc))
    case RecoverCommit =>
      if r.pc.Raised? && true in r.answers && Publish(job.i) in r.writes && r.phase != COMMITTED then r.(phase := COMMITTED) else r
  }

  function Failed(pc: Pc): (next: Pc) {
    match pc
    case Opening | Published | Queued | Dropped | CleaningFile(_) | CleaningIntent | Raised => Raised
    case Reading | Checking(_) | Cancelling | Copied => CleaningFile(false)
    case Recorded | ReadyToCommit | Committing => CleaningFile(true)
    case Returned => Returned
  }

  function Worked(r: Race, endOfFile: bool, job: Job): (next: Race) {
    match r.pc
    case Opening => r.(pc := Reading, writes := r.writes + [WriteTemporary(job.intent.temporary, job.file)])
    case Reading => r.(pc := Checking(r.phase == ABORTED))
    case Checking(sawAborted) =>
      if sawAborted || r.token || r.phase == ABORTED || r.expired then r.(pc := Cancelling)
      else if endOfFile then r.(pc := Copied)
      else r.(pc := Reading)
    case Cancelling => r.(phase := AfterCancel(r.phase), pc := CleaningFile(false))
    case Copied => r.(pc := Recorded, writes := r.writes + [WriteIntent(job.i, job.intent)])
    case Recorded =>
      var phase := Advanced(r.phase, COPYING, READY_TO_COMMIT, r.token, r.expired);
      r.(phase := phase, pc := if phase == READY_TO_COMMIT then ReadyToCommit else CleaningFile(true))
    case ReadyToCommit =>
      var phase := Advanced(r.phase, READY_TO_COMMIT, COMMITTING, r.token, r.expired);
      r.(phase := phase, pc := if phase == COMMITTING then Committing else CleaningFile(true))
    case Committing => r.(pc := Published, writes := r.writes + [Publish(job.i)])
    case Published => r.(pc := Queued, writes := r.writes + [InsertRow(job.i, job.stamp)])
    case Queued => r.(pc := Dropped, writes := r.writes + [DropIntent(job.i)])
    case Dropped => if r.phase == COMMITTING then r.(phase := COMMITTED, pc := Returned) else r.(pc := Raised)
    case CleaningFile(intentWritten) =>
      r.(pc := if intentWritten then CleaningIntent else Raised, writes := r.writes + [SetAsideFile(job.intent.temporary, job.aside)])
    case CleaningIntent => r.(pc := Raised, writes := r.writes + [StrayIntent(job.i)])
    case Returned => r
    case Raised => r
  }

  function Play(r: Race, steps: seq<Step>, job: Job): (end: Race)
    decreases |steps|
  {
    if steps == [] then r else Play(Next(r, steps[0], job), steps[1..], job)
  }

  /* What every interleaving keeps. */

  /** The phases the transaction can be in while the worker is where it is. */
  ghost predicate PhaseFits(r: Race, job: Job) {
    match r.pc
    case Opening | Reading | Cancelling | Copied | Recorded | Checking(_) => r.phase == COPYING || r.phase == ABORTED
    case ReadyToCommit => r.phase == READY_TO_COMMIT || r.phase == ABORTED
    case Committing | Published | Queued | Dropped => r.phase == COMMITTING
    case Returned => r.phase == COMMITTED
    case CleaningFile(_) | CleaningIntent => r.phase != COMMITTED
    case Raised => if Publish(job.i) in r.writes then CommitStarted(r.phase) else r.phase != COMMITTED
  }

  /** The point the worker was caught at, told from where it is. */
  ghost predicate CaughtAt(r: Race, caught: Checkpoint) {
    match r.pc
    case CleaningFile(intentWritten) => caught == if intentWritten then Ready else Copying
    case CleaningIntent => caught == Ready
    case Raised => true
    case _ => caught == Never
  }

  /** How many of its writes the worker has made. */
  function Progress(pc: Pc): nat {
    match pc
    case Opening => 0
    case Reading | Checking(_) | Cancelling | Copied => 1
    case Recorded | ReadyToCommit | Committing => 2
    case Published => 3
    case Queued => 4
    case Dropped | Returned => 5
    case CleaningFile(intentWritten) => if intentWritten then 2 else 1
    case CleaningIntent => 3
    case Raised => 0
  }

  function JobWrites(caught: Checkpoint, job: Job): seq<Write> {
    StageWrites(caught, job.i, job.intent, job.file, job.stamp, job.aside)
  }

  ghost predicate WritesFit(r: Race, caught: Checkpoint, job: Job) {
    && CaughtAt(r, caught)
    && r.writes <= JobWrites(caught, job)
    && (!r.pc.Raised? ==> |r.writes| == Progress(r.pc))
  }

  /** All callers were given the same answer, and it fits the phase. */
  ghost predicate AnswersFit(r: Race) {
    && (r.phase == COPYING || r.phase == READY_TO_COMMIT ==> r.answers == [])
    && (forall k | 0 <= k < |r.answers| :: r.answers[k] <==> CommitStarted(r.phase))
  }

  ghost predicate RaceInv(r: Race, job: Job) {
    PhaseFits(r, job) && AnswersFit(r) && exists caught :: WritesFit(r, caught, job)
  }

  lemma WorkKeepsPhase(r: Race, endOfFile: bool, job: Job)
    requires PhaseFits(r, job) && AnswersFit(r) && (r.pc.Raised? || r.pc.CleaningFile? || r.pc.CleaningIntent? ==> RaisedFits(r, job))
    ensures PhaseFits(Worked(r, endOfFile, job), job) && AnswersFit(Worked(r, endOfFile, job))
  {
  }

  /** A worker that is cleaning up has not published. */
  ghost predicate RaisedFits(r: Race, job: Job) {
    r.pc.CleaningFile? || r.pc.CleaningIntent? ==> Publish(job.i) !in r.writes
  }

  lemma WritesTell(r: Race, caught: Checkpoint, job: Job)
    requires WritesFit(r, caught, job)
    ensures RaisedFits(r, job)
    ensures r.pc.Published? || r.pc.Queued? || r.pc.Dropped? || r.pc.Returned? ==> Publish(job.i) in r.writes
    ensures !r.pc.Published? && !r.pc.Queued? && !r.pc.Dropped? && !r.pc.Returned? && !r.pc.Raised? ==> Publish(job.i) !in r.writes
  {
    PublishedFirst(r, caught, job);
  }

  lemma OtherKeepsPhase(r: Race, step: Step, job: Job)
    requires PhaseFits(r, job) && AnswersFit(r) && !step.Work?
    requires r.pc.Published? || r.pc.Queued? || r.pc.Dropped? || r.pc.Returned? ==> Publish(job.i) in r.writes
    requires !r.pc.Published? && !r.pc.Queued? && !r.pc.Dropped? && !r.pc.Returned? && !r.pc.Raised? ==> Publish(job.i) !in r.writes
    ensures PhaseFits(Next(r, step, job), job) && AnswersFit(Next(r, step, job))
  {
  }

  lemma NextKeepsPhase(r: Race, step: Step, job: Job)
    requires RaceInv(r, job)
    ensures PhaseFits(Next(r, step, job), job) && AnswersFit(Next(r, step, job))
  {
    hide WritesFit, PhaseFits, AnswersFit, RaisedFits, Worked, Failed;
    var caught :| WritesFit(r, caught, job);
    WritesTell(r, caught, job);
    if step.Work? {
      WorkKeepsPhase(r, step.endOfFile, job);
    } else {
      OtherKeepsPhase(r, step, job);
    }
  }

  predicate Writing(pc: Pc) {
    pc.Opening? || pc.Copied? || pc.Committing? || pc.Published? || pc.Queued? || pc.CleaningFile? || pc.CleaningIntent?
  }

  lemma SilentKeepsWrites(r: Race, endOfFile: bool, caught: Checkpoint, job: Job) returns (later: Checkpoint)
    requires WritesFit(r, caught, job) && !Writing(r.pc)
    ensures WritesFit(Worked(r, endOfFile, job), later, job)
  {
    var next := Worked(r, endOfFile, job);
    later := LaterCaught(next.pc, caught);
    assert r.writes == JobWrites(caught, job)[..|r.writes|] == JobWrites(later, job)[..|r.writes|];
  }

  /** The worker's next write is the next one of its list. */
  lemma WritingKeepsWrites(r: Race, endOfFile: bool, caught: Checkpoint, job: Job)
    requires WritesFit(r, caught, job) && Writing(r.pc)
    ensures WritesFit(Worked(r, endOfFile, job), caught, job)
  {
    var all, n := JobWrites(caught, job), |r.writes|;
    assert n < |all| && Worked(r, endOfFile, job).writes == r.writes + [all[n]];
    assert all[..n] + [all[n]] == all[..n + 1];
  }

  function LaterCaught(pc: Pc, caught: Checkpoint): (later: Checkpoint) {
    match pc
    case CleaningFile(intentWritten) => if intentWritten then Ready else Copying
    case _ => caught
  }

  lemma FailKeepsWrites(r: Race, caught: Checkpoint, job: Job) returns (later: Checkpoint)
    requires WritesFit(r, caught, job)
    ensures WritesFit(r.(pc := Failed(r.pc)), later, job)
  {
    later := LaterCaught(Failed(r.pc), caught);
    assert r.writes == JobWrites(caught, job)[..|r.writes|] == JobWrites(later, job)[..|r.writes|];
  }

  lemma NextKeepsInv(r: Race, step: Step, job: Job)
    requires RaceInv(r, job)
    ensures RaceInv(Next(r, step, job), job)
  {
    hide PhaseFits, AnswersFit, Worked, Failed;
    NextKeepsPhase(r, step, job);
    var caught :| WritesFit(r, caught, job);
    if step.Work? {
      if Writing(r.pc) {
        WritingKeepsWrites(r, step.endOfFile, caught, job);
      } else {
        var later := SilentKeepsWrites(r, step.endOfFile, caught, job);
      }
    } else if step.Fail? {
      var later := FailKeepsWrites(r, caught, job);
    } else {
      assert WritesFit(Next(r, step, job), caught, job);
    }
  }

  lemma {:induction false} PlayKeepsInv(r: Race, steps: seq<Step>, job: Job)
    requires RaceInv(r, job)
    ensures RaceInv(Play(r, steps, job), job)
    decreases |steps|
  {
    hide RaceInv;
    if steps != [] {
      NextKeepsInv(r, steps[0], job);
      PlayKeepsInv(Next(r, steps[0], job), steps[1..], job);
    }
  }

  lemma BeginInv(job: Job)
    ensures RaceInv(BEGIN, job)
  {
    assert WritesFit(BEGIN, Never, job);
  }

  ghost predicate Reached(r: Race, job: Job) {
    exists steps :: Play(BEGIN, steps, job) == r
  }

  lemma ReachedInv(r: Race, job: Job)
    requires Reached(r, job)
    ensures RaceInv(r, job)
  {
    var steps :| Play(BEGIN, steps, job) == r;
    BeginInv(job);
    PlayKeepsInv(BEGIN, steps, job);
  }

  lemma StepAbsorbs(r: Race, step: Step, job: Job)
    requires PhaseFits(r, job)
    ensures r.phase == ABORTED ==> Next(r, step, job).phase == ABORTED
    ensures r.phase == COMMITTED ==> Next(r, step, job).phase == COMMITTED
    ensures CommitStarted(r.phase) ==> CommitStarted(Next(r, step, job).phase)
    ensures r.answers <= Next(r, step, job).answers
  {
  }

  /** ABORTED and COMMITTED are absorbing, and no answer is taken back. */
  lemma {:induction false} Absorbing(r: Race, steps: seq<Step>, job: Job)
    requires RaceInv(r, job)
    ensures r.phase == ABORTED ==> Play(r, steps, job).phase == ABORTED
    ensures r.phase == COMMITTED ==> Play(r, steps, job).phase == COMMITTED
    ensures CommitStarted(r.phase) ==> CommitStarted(Play(r, steps, job).phase)
    ensures r.answers <= Play(r, steps, job).answers
    decreases |steps|
  {
    hide PhaseFits, AnswersFit, Next;
    if steps != [] {
      NextKeepsInv(r, steps[0], job);
      StepAbsorbs(r, steps[0], job);
      Absorbing(Next(r, steps[0], job), steps[1..], job);
    }
  }

  /** A cancellation answered False has won: whatever else happens, the stage never publishes a final
      name, never inserts a row and never returns. */
  lemma CancelWins(r: Race, steps: seq<Step>, job: Job)
    requires Reached(r, job) && false in r.answers
    ensures var t := Play(r, steps, job);
            && t.phase == ABORTED && !t.pc.Returned?
            && Publish(job.i) !in t.writes && InsertRow(job.i, job.stamp) !in t.writes
  {
    ReachedInv(r, job);
    Absorbing(r, steps, job);
    PlayKeepsInv(r, steps, job);
    AbortedWroteNothing(Play(r, steps, job), job);
  }

  lemma AbortedWroteNothing(r: Race, job: Job)
    requires RaceInv(r, job) && r.phase == ABORTED
    ensures !r.pc.Returned? && Publish(job.i) !in r.writes && InsertRow(job.i, job.stamp) !in r.writes
  {
    var caught :| WritesFit(r, caught, job);
    PublishedFirst(r, caught, job);
  }

  /** The row is only written after the final name, and neither by a stage that was caught. */
  lemma PublishedFirst(r: Race, caught: Checkpoint, job: Job)
    requires WritesFit(r, caught, job)
    ensures InsertRow(job.i, job.stamp) in r.writes ==> Publish(job.i) in r.writes
    ensures Publish(job.i) in r.writes ==> caught == Never && |r.writes| >= 3
    ensures caught == Never && |r.writes| >= 3 ==> Publish(job.i) in r.writes
  {
    var all := JobWrites(caught, job);
    assert forall k | 0 <= k < |r.writes| :: r.writes[k] == all[k];
    if Publish(job.i) in r.writes {
      var k :| 0 <= k < |r.writes| && r.writes[k] == Publish(job.i);
      assert k == 2;
    }
    if caught == Never && |r.writes| >= 3 {
      assert r.writes[2] == Publish(job.i);
    }
  }

  /** All callers ever get the same answer, so exactly one side wins. */
  lemma OneSideWins(r: Race, job: Job)
    requires Reached(r, job)
    ensures !(false in r.answers && true in r.answers)
    ensures true in r.answers ==> CommitStarted(r.phase)
    ensures Publish(job.i) in r.writes ==> CommitStarted(r.phase) && false !in r.answers
  {
    ReachedInv(r, job);
    if r.phase == ABORTED {
      AbortedWroteNothing(r, job);
    } else if Publish(job.i) in r.writes {
      var caught :| WritesFit(r, caught, job);
      PublishedFirst(r, caught, job);
    }
  }

  /** A stage that returned has made exactly the writes of an uninterrupted stage. */
  lemma ReturnedIsDurable(r: Race, job: Job)
    requires Reached(r, job) && r.pc.Returned?
    ensures r.phase == COMMITTED && r.writes == StagePlan(job.i, job.intent, job.file, job.stamp)
  {
    ReachedInv(r, job);
    var caught :| WritesFit(r, caught, job);
    assert r.writes == JobWrites(Never, job)[..5];
  }

  /** However the race goes, the worker's durable writes are those of one staging call, cut off where
      the worker stopped; and a stage that was caught never got as far as publication. */
  lemma RaceWritesAreAStage(r: Race, job: Job) returns (caught: Checkpoint)
    requires Reached(r, job)
    ensures r.writes <= StageWrites(caught, job.i, job.intent, job.file, job.stamp, job.aside)
    ensures Publish(job.i) in r.writes ==> caught == Never
  {
    ReachedInv(r, job);
    caught :| WritesFit(r, caught, job);
    PublishedFirst(r, caught, job);
  }

  /** A cancellation is answered at once: False, and the stage is aborted, while it has not begun to commit;
      True, and nothing changes, once it has. */
  lemma CancelAnswers(r: Race, job: Job)
    requires Reached(r, job)
    ensures var t := Next(r, Cancel, job);
            && (r.phase == COPYING || r.phase == READY_TO_COMMIT || r.phase == ABORTED ==> t == r.(phase := ABORTED, answers := r.answers + [false]))
            && (r.phase == COMMITTING || r.phase == COMMITTED ==> t == r.(answers := r.answers + [true]))
  {
  }

  /** A caller told that the commit had started, whose worker then raised, finds the stage committed after
      recovery if and only if it had been published; nobody else's recovery commits anything. */
  lemma RecoveryCommits(r: Race, job: Job)
    requires Reached(r, job)
    ensures var t := Next(r, RecoverCommit, job);
            && t == r.(phase := t.phase)
            && (r.pc.Raised? && true in r.answers ==> (t.phase == COMMITTED <==> Publish(job.i) in r.writes))
            && (t.phase != r.phase ==> r.pc.Raised? && true in r.answers && Publish(job.i) in r.writes)
  {
    ReachedInv(r, job);
    hide Worked, Failed;
  }

  /* Who stops a stage in time, and who does not. */

  /** The token or the deadline came before the commit began. */
  predicate StoppedInTime(r: Race) {
    (r.token || r.expired) && (r.phase == COPYING || r.phase == READY_TO_COMMIT || r.phase == ABORTED)
  }

  lemma StoppedStays(r: Race, step: Step, job: Job)
    requires RaceInv(r, job) && StoppedInTime(r)
    ensures StoppedInTime(Next(r, step, job))
  {
  }

  /** A token cancelled, or a deadline passed, before the worker's begin_commit wins like a cancellation: in
      every interleaving the stage never publishes, never inserts a row and never returns. */
  lemma StoppedNeverPublishes(r: Race, steps: seq<Step>, job: Job)
    requires Reached(r, job) && (r.token || r.expired) && (r.phase == COPYING || r.phase == READY_TO_COMMIT || r.phase == ABORTED)
    ensures var t := Play(r, steps, job);
            && t.phase != COMMITTING && t.phase != COMMITTED && !t.pc.Returned?
            && Publish(job.i) !in t.writes && InsertRow(job.i, job.stamp) !in t.writes
  {
    ReachedInv(r, job);
    StaysStopped(r, steps, job);
    hide Next, Play;
    var t := Play(r, steps, job);
    var caught :| WritesFit(t, caught, job);
    PublishedFirst(t, caught, job);
    WritesTell(t, caught, job);
  }

  lemma {:induction false} StaysStopped(r: Race, steps: seq<Step>, job: Job)
    requires RaceInv(r, job) && StoppedInTime(r)
    ensures RaceInv(Play(r, steps, job), job) && StoppedInTime(Play(r, steps, job))
    decreases |steps|
  {
    hide RaceInv, StoppedInTime, Next;
    if steps != [] {
      NextKeepsInv(r, steps[0], job);
      StoppedStays(r, steps[0], job);
      StaysStopped(Next(r, steps[0], job), steps[1..], job);
    }
  }

  /** While it copies, whatever stops it - a cancellation, the token, the deadline - ends it before the
      intent is written. */
  lemma StoppedCopyRecordsNothing(r: Race, steps: seq<Step>, job: Job)
    requires r.pc.Opening? || r.pc.Reading? || r.pc.Checking?
    requires (r.token || r.expired || r.phase == ABORTED) && WriteIntent(job.i, job.intent) !in r.writes
    ensures WriteIntent(job.i, job.intent) !in Play(r, steps, job).writes
  {
    GoesNoFurther(r, steps, job);
  }

  predicate CopyStopped(r: Race, job: Job) {
    && (r.token || r.expired || r.phase == ABORTED || r.pc.Raised?) && WriteIntent(job.i, job.intent) !in r.writes
    && (r.pc.Opening? || r.pc.Reading? || r.pc.Checking? || r.pc.Cancelling? || r.pc == CleaningFile(false) || r.pc.Raised?)
  }

  lemma {:induction false} GoesNoFurther(r: Race, steps: seq<Step>, job: Job)
    requires CopyStopped(r, job)
    ensures CopyStopped(Play(r, steps, job), job)
    decreases |steps|
  {
    if steps != [] {
      GoesNoFurther(Next(r, steps[0], job), steps[1..], job);
    }
  }

  /** Nothing has come in the worker's way. */
  predicate Undisturbed(r: Race) {
    && !r.token && !r.expired && r.answers == []
    && match r.pc
       case Opening | Reading | Copied | Recorded => r.phase == COPYING
       case Checking(sawAborted) => r.phase == COPYING && !sawAborted
       case ReadyToCommit => r.phase == READY_TO_COMMIT
       case Committing | Published | Queued | Dropped => r.phase == COMMITTING
       case Returned => r.phase == COMMITTED
       case _ => false
  }

  predicate WorkersOwn(steps: seq<Step>) {
    forall k | 0 <= k < |steps| :: steps[k].Work? || steps[k].RecoverCommit?
  }

  lemma {:induction false} StaysUndisturbed(r: Race, steps: seq<Step>, job: Job)
    requires Undisturbed(r) && WorkersOwn(steps)
    ensures Undisturbed(Play(r, steps, job))
    decreases |steps|
  {
    if steps != [] {
      assert Undisturbed(Next(r, steps[0], job));
      hide Undisturbed, Next;
      StaysUndisturbed(Next(r, steps[0], job), steps[1..], job);
    }
  }

  /** How many more steps an undisturbed worker takes once the copy has come to its end. */
  function StepsToReturn(pc: Pc): nat {
    match pc
    case Opening => 10
    case Reading => 9
    case Checking(_) => 8
    case Copied => 7
    case Recorded => 6
    case ReadyToCommit => 5
    case Committing => 4
    case Published => 3
    case Queued => 2
    case Dropped => 1
    case _ => 0
  }

  lemma {:induction false} UndisturbedReturns(r: Race, n: nat, job: Job)
    requires Undisturbed(r) && StepsToReturn(r.pc) <= n
    ensures Play(r, WorkSteps(n), job).pc.Returned?
    decreases n
  {
    if n > 0 {
      assert WorkSteps(n)[1..] == WorkSteps(n - 1);
      var t := Next(r, Work(true), job);
      assert Undisturbed(t) && StepsToReturn(t.pc) <= n - 1;
      hide Undisturbed, Next;
      UndisturbedReturns(t, n - 1, job);
    }
  }

  /** A stage that nothing disturbs - no cancellation, no token, no deadline, no failure - commits: however
      long it copies, ten of the worker's steps after the end of the file it has returned, committed, with
      all five writes. */
  lemma TimelyStageReturns(steps: seq<Step>, n: nat, job: Job)
    requires (forall k | 0 <= k < |steps| :: steps[k].Work? || steps[k].RecoverCommit?) && n >= 10
    ensures var t := Play(Play(BEGIN, steps, job), WorkSteps(n), job);
            && t.pc.Returned? && t.phase == COMMITTED
            && t.writes == [WriteTemporary(job.intent.temporary, job.file), WriteIntent(job.i, job.intent), Publish(job.i),
                            InsertRow(job.i, job.stamp), DropIntent(job.i)]
  {
    var r := Play(BEGIN, steps, job);
    StaysUndisturbed(BEGIN, steps, job);
    UndisturbedReturns(r, n, job);
    hide Next, Undisturbed;
    PlayAppend(BEGIN, steps, WorkSteps(n), job);
    assert Play(BEGIN, steps + WorkSteps(n), job) == Play(r, WorkSteps(n), job);
    ReturnedIsDurable(Play(r, WorkSteps(n), job), job);
  }

  lemma {:induction false} PlayAppend(r: Race, a: seq<Step>, b: seq<Step>, job: Job)
    ensures Play(r, a + b, job) == Play(Play(r, a, job), b, job)
    decreases |a|
  {
    if a == [] {
      assert a + b == b;
    } else {
      assert (a + b)[1..] == a[1..] + b;
      PlayAppend(Next(r, a[0], job), a[1..], b, job);
    }
  }

  function WorkSteps(n: nat): (steps: seq<Step>) {
    if n == 0 then [] else [Work(true)] + WorkSteps(n - 1)
  }

  /** How many more steps of its own a worker of an aborted stage takes. */
  function StepsLeft(pc: Pc): nat {
    match pc
    case Opening => 5
    case Reading => 4
    case Checking(_) => 3
    case Cancelling => 2
    case Copied => 4
    case Recorded | ReadyToCommit => 3
    case CleaningFile(intentWritten) => if intentWritten then 2 else 1
    case CleaningIntent => 1
    case _ => 0
  }

  lemma AbortedStep(r: Race, job: Job)
    requires PhaseFits(r, job) && r.phase == ABORTED && !r.pc.Raised?
    ensures var t := Worked(r, true, job); t.phase == ABORTED && StepsLeft(t.pc) < StepsLeft(r.pc)
  {
  }

  /** Once the stage is aborted, the worker itself raises within five of its own steps, having cleaned
      up whatever it had written. */
  lemma {:induction false} AbortedWorkerRaises(r: Race, n: nat, job: Job)
    requires RaceInv(r, job) && r.phase == ABORTED && StepsLeft(r.pc) <= n
    ensures StepsLeft(r.pc) <= 5
    ensures Play(r, WorkSteps(n), job).pc.Raised?
    decreases n
  {
    hide RaceInv, Worked;
    AbortedFits(r, job);
    if n > 0 {
      assert WorkSteps(n)[1..] == WorkSteps(n - 1);
      NextKeepsInv(r, Work(true), job);
      if r.pc.Raised? {
        RaisedStays(r, job);
      } else {
        AbortedStep(r, job);
      }
      AbortedWorkerRaises(Worked(r, true, job), n - 1, job);
    }
  }

  lemma AbortedFits(r: Race, job: Job)
    requires RaceInv(r, job) && r.phase == ABORTED
    ensures PhaseFits(r, job) && (StepsLeft(r.pc) == 0 ==> r.pc.Raised?)
  {
  }

  lemma RaisedStays(r: Race, job: Job)
    requires r.pc.Raised?
    ensures Worked(r, true, job) == r
  {
  }

  /* The same, told by the outbox the worker writes to. */

  /** A write by which an unpublished stage touches neither rows nor final names. */
  predicate Unpublishing(w: Write) {
    w.WriteTemporary? || w.WriteIntent? || w.SetAsideFile? || w.StrayIntent?
  }

  lemma {:induction false} UnpublishedRun(s: State, ws: seq<Write>, final: Name)
    requires LegalRun(s, ws) && final.Final? && forall k | 0 <= k < |ws| :: Unpublishing(ws[k])
    ensures Run(s, ws).rows == s.rows && (final in Run(s, ws).outbox <==> final in s.outbox)
    decreases |ws|
  {
    if ws != [] {
      UnpublishedStep(s, ws[0], final);
      UnpublishedRun(Apply(s, ws[0]), ws[1..], final);
    }
  }

  lemma UnpublishedStep(s: State, w: Write, final: Name)
    requires Legal(s, w) && final.Final? && Unpublishing(w)
    ensures Apply(s, w).rows == s.rows && (final in Apply(s, w).outbox <==> final in s.outbox)
  {
  }

  /** Run against any outbox, a stage whose cancellation was answered False leaves the rows as they
      were and no final name, and a stage that returned has published its file and inserted its row. */
  lemma RaceInTheOutbox(s: State, r: Race, job: Job)
    requires Inv(s) && Stageable(s, job.i, job.intent, job.file) && job.aside.SetAside? && job.aside !in s.used
    requires Reached(r, job)
    ensures LegalRun(s, r.writes)
    ensures false in r.answers ==> Run(s, r.writes).rows == s.rows && job.intent.final !in Run(s, r.writes).outbox
    ensures r.pc.Returned? ==>
              && Run(s, r.writes).outbox == s.outbox[job.intent.final := job.file]
              && Run(s, r.writes).rows == s.rows[job.intent.artifact := Row(job.intent.final, job.intent.body, job.intent.task, false, job.stamp)]
  {
    hide Inv, Legal, Apply, LegalRun, Run, Next, Worked;
    var caught := RaceWritesAreAStage(r, job);
    var all := StageWrites(caught, job.i, job.intent, job.file, job.stamp, job.aside);
    StageWritesRun(s, caught, job.i, job.intent, job.file, job.stamp, job.aside);
    assert all == r.writes + all[|r.writes|..];
    RunSplit(s, r.writes, all[|r.writes|..]);
    if false in r.answers {
      AbortedWrites(r, caught, job);
      NamesUsed(s);
      UnpublishedRun(s, r.writes, job.intent.final);
    }
    if r.pc.Returned? {
      ReturnedIsDurable(r, job);
      StageEffect(s, job.i, job.intent, job.file, job.stamp);
    }
  }

  lemma AbortedWrites(r: Race, caught: Checkpoint, job: Job)
    requires Reached(r, job) && false in r.answers
    requires r.writes <= StageWrites(caught, job.i, job.intent, job.file, job.stamp, job.aside)
    ensures forall k | 0 <= k < |r.writes| :: Unpublishing(r.writes[k])
  {
    hide Next, Worked;
    CancelWins(r, [], job);
    var all := StageWrites(caught, job.i, job.intent, job.file, job.stamp, job.aside);
    if caught == Never {
      ThirdPublishes(r.writes, job);
    }
  }

  lemma ThirdPublishes(ws: seq<Write>, job: Job)
    requires ws <= StagePlan(job.i, job.intent, job.file, job.stamp)
    ensures |ws| >= 3 ==> Publish(job.i) in ws
  {
    if |ws| >= 3 {
      assert ws[2] == StagePlan(job.i, job.intent, job.file, job.stamp)[2];
    }
  }
}
