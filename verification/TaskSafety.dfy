/** Task runners racing over one store: who may execute what, how often, and what is left behind. */
module TaskSafety {
  import opened Options
  import opened TaskStore

  /** Where one call of TaskRunner.run is. */
  datatype Pc =
    | Fetched                       // before the checks and the claim
    | HasClaim                      // preparing
    | Started                       // running, before mark_invoked
    | MarkedInvoked                 // about to call the plugin
    | Executing
    | Interrupting(final: TaskState)   // timed out or cancelled: running to cancel_requested
    | AfterExecute(final: TaskState)
    | Cleaning(final: TaskState)
    | Finishing(final: TaskState)

  datatype Runner = Runner(task: nat, pc: Pc, token: bool)

  /** `invoked` lists every call of a plugin's execute, by task, in order. */
  datatype World = World(store: Tables, runners: map<nat, Runner>, invoked: seq<nat>)

  datatype PluginOutcome = Succeeded | ReportedFailure | Raised | TimedOut | LoopCancelled

  /** What the checks, the plugin and the cleanup do at one step of a runner. */
  datatype Choice = Choice(refused: Option<TaskState>, outcome: PluginOutcome, cleanedUp: bool, result: nat)

  datatype Event =
    | Ingest(task: Task)
    | RejectCorrupt(t: nat)
    | Fetch(runner: nat, t: nat)
    | Work(runner: nat, choice: Choice)
    | CancelToken(runner: nat)
    | Die(runner: nat)              // an error raised out of run()
    | Restart

  ghost predicate Possible(w: World, e: Event) {
    match e
    case Fetch(runner, t) => runner !in w.runners && t in w.store.inbox
    case Work(runner, choice) =>
      && runner in w.runners && choice.result !in w.store.results
      && (choice.refused.Some? ==> choice.refused.value.Skipped? || choice.refused.value.Blocked? || choice.refused.value.Rejected?)
    case CancelToken(runner) => runner in w.runners
    case Die(runner) => runner in w.runners
    case _ => true
  }

  function FinalOf(outcome: PluginOutcome): (final: TaskState) {
    match outcome
    case Succeeded => Completed
    case LoopCancelled => Cancelled
    case _ => Failed
  }

  /** One step of run().  A compare-and-set that fails raises, and the runner is gone. */
  function Ran(w: World, runner: nat, c: Choice): (next: World)
    requires runner in w.runners
  {
    var r := w.runners[runner];
    var t, gone := r.task, w.(runners := w.runners - {runner});
    match r.pc
    case Fetched =>
      if c.refused.Some? then
        if CanMove(w.store, t, Queued, c.refused.value) then gone.(store := Moved(w.store, t, c.refused.value)) else gone
      else if Claimable(w.store, t) then
        w.(store := Claimed(w.store, t), runners := w.runners[runner := r.(pc := HasClaim)])
      else gone
    case HasClaim =>
      if CanMove(w.store, t, Preparing, Running) then
        w.(store := Moved(w.store, t, Running), runners := w.runners[runner := r.(pc := Started)])
      else gone
    case Started =>
      if CanMark(w.store, t) then w.(store := Marked(w.store, t), runners := w.runners[runner := r.(pc := MarkedInvoked)]) else gone
    case MarkedInvoked => w.(invoked := w.invoked + [t], runners := w.runners[runner := r.(pc := Executing)])
    case Executing =>
      if c.outcome.TimedOut? || c.outcome.LoopCancelled? then
        w.(runners := w.runners[runner := Runner(t, Interrupting(FinalOf(c.outcome)), true)])
      else w.(runners := w.runners[runner := r.(pc := AfterExecute(FinalOf(c.outcome)))])
    case Interrupting(final) =>
      if CanMove(w.store, t, Running, CancelRequested) then
        w.(store := Moved(w.store, t, CancelRequested), runners := w.runners[runner := r.(pc := AfterExecute(final))])
      else gone
    case AfterExecute(final) =>
      // The token decides which state is expected, whoever cancelled it.
      var current := if r.token then CancelRequested else Running;
      if CanMove(w.store, t, current, CleaningUp) then
        w.(store := Moved(w.store, t, CleaningUp), runners := w.runners[runner := r.(pc := Cleaning(final))])
      else gone
    case Cleaning(final) => w.(runners := w.runners[runner := r.(pc := Finishing(if c.cleanedUp then final else Failed))])
    case Finishing(final) =>
      if CanMove(w.store, t, CleaningUp, final) then gone.(store := Finished(w.store, t, final, c.result)) else gone
  }

  /** run() registers its cancellation token once the task is running; before that cancel() finds none. */
  predicate HasToken(pc: Pc) {
    !pc.Fetched? && !pc.HasClaim?
  }

  ghost function Next(w: World, e: Event): (next: World)
    requires Possible(w, e)
  {
    match e
    case Ingest(task) => w.(store := Ingested(w.store, task).0)
    case RejectCorrupt(t) => if CanMove(w.store, t, Queued, Rejected) then w.(store := Moved(w.store, t, Rejected)) else w
    case Fetch(runner, t) => w.(runners := w.runners[runner := Runner(t, Fetched, false)])
    case Work(runner, choice) => Ran(w, runner, choice)
    case CancelToken(runner) =>
      if HasToken(w.runners[runner].pc) then w.(runners := w.runners[runner := w.runners[runner].(token := true)]) else w
    case Die(runner) => w.(runners := w.runners - {runner})
    case Restart => w.(store := Recovered(w.store), runners := map[])
  }

  ghost predicate PossibleRun(w: World, events: seq<Event>)
    decreases |events|
  {
    events != [] ==> Possible(w, events[0]) && PossibleRun(Next(w, events[0]), events[1..])
  }

  ghost function Play(w: World, events: seq<Event>): (end: World)
    requires PossibleRun(w, events)
    decreases |events|
  {
    if events == [] then w else Play(Next(w, events[0]), events[1..])
  }

  lemma {:induction false} PlayAppend(w: World, events: seq<Event>, e: Event)
    requires PossibleRun(w, events) && Possible(Play(w, events), e)
    ensures PossibleRun(w, events + [e]) && Play(w, events + [e]) == Next(Play(w, events), e)
    decreases |events|
  {
    hide Possible, Next;
    if events == [] {
      assert [] + [e] == [e] && [e][1..] == [];
    } else {
      assert (events + [e])[1..] == events[1..] + [e];
      PlayAppend(Next(w, events[0]), events[1..], e);
    }
  }

  const BEGIN: World := World(NO_TASKS, map[], [])

  /* The invariant. */

  /** The states only the canonical task of a key can be in. */
  predicate Canonical(state: TaskState) {
    Unfinished(state) || ExecutionTerminal(state) || state.Queued?
  }

  ghost predicate RowOk(s: Tables, t: nat)
    requires t in s.inbox
  {
    var row := s.inbox[t];
    && row.key in s.effects && !row.state.Received?
    && var effect := s.effects[row.key];
    && effect.canonical in s.inbox && s.inbox[effect.canonical].key == row.key && s.inbox[effect.canonical].effect == effect.hash
    && (Canonical(row.state) || t in s.attempts ==> effect.canonical == t)
    && (t in s.attempts <==> Unfinished(row.state) || ExecutionTerminal(row.state))
    && (effect.canonical == t ==> (effect.claimed <==> t in s.attempts))
    && (effect.canonical == t ==> (effect.terminal.Some? <==> WithResult(row.state)))
    && (effect.canonical == t && effect.terminal.Some? ==>
          effect.terminal.value.0 == row.state && effect.terminal.value.1 in s.results && s.results[effect.terminal.value.1] == t)
    && (forall r | r in s.results && s.results[r] == t :: effect.canonical == t && effect.terminal.Some? && effect.terminal.value.1 == r)
  }

  predicate WithResult(state: TaskState) {
    state.Completed? || state.Failed? || state.Cancelled?
  }

  ghost predicate StoreOk(s: Tables) {
    && (forall t | t in s.inbox :: RowOk(s, t))
    && s.attempts.Keys <= s.inbox.Keys
    && (forall r | r in s.results :: s.results[r] in s.inbox)
    && (forall k | k in s.effects :: s.effects[k].canonical in s.inbox && s.inbox[s.effects[k].canonical].key == k)
  }

  /** What holds of a task while a runner is at some point of its execution. */
  ghost predicate RunnerOk(w: World, r: Runner) {
    && r.task in w.store.inbox
    && var state := w.store.inbox[r.task].state;
    && (!r.pc.Fetched? ==> r.task in w.store.attempts)
    && match r.pc
       case Fetched => true
       case HasClaim => state.Preparing? && !w.store.attempts[r.task].invoked && r.task !in w.invoked
       case Started => state.Running? && !w.store.attempts[r.task].invoked && r.task !in w.invoked
       case MarkedInvoked => state.Running? && w.store.attempts[r.task].invoked && r.task !in w.invoked
       case Executing => state.Running? && w.store.attempts[r.task].invoked
       case Interrupting(final) => state.Running? && w.store.attempts[r.task].invoked && WithResult(final)
       case AfterExecute(final) => (state.Running? || state.CancelRequested?) && w.store.attempts[r.task].invoked && WithResult(final)
       case Cleaning(final) => state.CleaningUp? && w.store.attempts[r.task].invoked && WithResult(final)
       case Finishing(final) => state.CleaningUp? && w.store.attempts[r.task].invoked && WithResult(final)
  }

  ghost predicate RunnersOk(w: World) {
    && (forall a | a in w.runners :: RunnerOk(w, w.runners[a]))
    && (forall a, b | a in w.runners && b in w.runners && a != b && w.runners[a].task == w.runners[b].task ::
          w.runners[a].pc.Fetched? || w.runners[b].pc.Fetched?)
  }

  ghost predicate InvokedOk(w: World) {
    && (forall i | 0 <= i < |w.invoked| :: w.invoked[i] in w.store.attempts && w.store.attempts[w.invoked[i]].invoked)
    && (forall i, j | 0 <= i < j < |w.invoked| :: w.invoked[i] != w.invoked[j])
  }

  ghost predicate WorldInv(w: World) {
    StoreOk(w.store) && RunnersOk(w) && InvokedOk(w)
  }

  lemma BeginInv()
    ensures WorldInv(BEGIN)
  {
  }

  /* The store's transactions keep the store in order. */

  lemma IngestKeepsStore(s: Tables, task: Task)
    requires StoreOk(s)
    ensures StoreOk(Ingested(s, task).0)
  {
    if task.id !in s.inbox {
      var after := Ingested(s, task).0;
      forall t | t in after.inbox ensures RowOk(after, t) {
        IngestKeepsRow(s, task, t);
      }
    }
  }

  lemma IngestKeepsRow(s: Tables, task: Task, t: nat)
    requires StoreOk(s) && task.id !in s.inbox && t in Ingested(s, task).0.inbox
    ensures RowOk(Ingested(s, task).0, t)
  {
    if t != task.id {
      assert RowOk(s, t);
      assert task.key !in s.effects ==> s.inbox[t].key != task.key;
      hide StoreOk;
    }
  }

  lemma ClaimKeepsStore(s: Tables, t: nat)
    requires StoreOk(s) && Claimable(s, t)
    ensures StoreOk(Claimed(s, t))
  {
    var after := Claimed(s, t);
    assert RowOk(s, t);
    forall u | u in after.inbox ensures RowOk(after, u) {
      assert RowOk(s, u);
    }
  }

  /** Moves that neither start nor end an execution. */
  predicate Harmless(current: TaskState, target: TaskState) {
    || (Unfinished(current) && Unfinished(target))
    || (current.Queued? && (target.Skipped? || target.Blocked? || target.Rejected?))
    || (Unfinished(current) && target.Interrupted?)
  }

  lemma MoveKeepsStore(s: Tables, t: nat, target: TaskState)
    requires StoreOk(s) && t in s.inbox && Harmless(s.inbox[t].state, target)
    ensures StoreOk(Moved(s, t, target))
  {
    var after := Moved(s, t, target);
    forall u | u in after.inbox ensures RowOk(after, u) {
      MoveKeepsRow(s, t, target, u);
    }
  }

  lemma MoveKeepsRow(s: Tables, t: nat, target: TaskState, u: nat)
    requires StoreOk(s) && t in s.inbox && Harmless(s.inbox[t].state, target) && u in s.inbox
    ensures RowOk(Moved(s, t, target), u)
  {
    assert RowOk(s, u);
    if u == t {
      MovedRow(s, t, target);
    } else {
      OtherRow(s, t, target, u);
    }
  }

  lemma MovedRow(s: Tables, t: nat, target: TaskState)
    requires t in s.inbox && RowOk(s, t) && Harmless(s.inbox[t].state, target)
    ensures RowOk(Moved(s, t, target), t)
  {
  }

  lemma OtherRow(s: Tables, t: nat, target: TaskState, u: nat)
    requires t in s.inbox && u in s.inbox && u != t && RowOk(s, u)
    ensures RowOk(Moved(s, t, target), u)
  {
  }

  lemma MarkKeepsStore(s: Tables, t: nat)
    requires StoreOk(s) && CanMark(s, t)
    ensures StoreOk(Marked(s, t))
  {
    var after := Marked(s, t);
    forall u | u in after.inbox ensures RowOk(after, u) {
      assert RowOk(s, u);
    }
  }

  lemma FinishKeepsStore(s: Tables, t: nat, target: TaskState, result: nat)
    requires StoreOk(s) && t in s.inbox && s.inbox[t].state.CleaningUp? && WithResult(target) && result !in s.results
    ensures StoreOk(Finished(s, t, target, result))
  {
    var after := Finished(s, t, target, result);
    assert RowOk(s, t);
    forall u | u in after.inbox ensures RowOk(after, u) {
      assert RowOk(s, u);
    }
  }

  lemma RecoverKeepsStore(s: Tables)
    requires StoreOk(s)
    ensures StoreOk(Recovered(s))
  {
    var after := Recovered(s);
    forall u | u in after.inbox ensures RowOk(after, u) {
      assert RowOk(s, u);
    }
  }

  /* The runners. */

  /** What a runner at some point of task u sees of the world. */
  ghost predicate SameTask(w: World, x: World, u: nat) {
    && u in w.store.inbox && u in x.store.inbox && x.store.inbox[u].state == w.store.inbox[u].state
    && (u in w.store.attempts <==> u in x.store.attempts)
    && (u in w.store.attempts ==> x.store.attempts[u].invoked == w.store.attempts[u].invoked)
    && (u in x.invoked <==> u in w.invoked)
  }

  lemma RunnerFrame(w: World, x: World, r: Runner)
    requires RunnerOk(w, r) && SameTask(w, x, r.task)
    ensures RunnerOk(x, r)
  {
  }

  /** From w to x only task t changed, and invocations stay in order. */
  ghost predicate OnlyTouches(w: World, x: World, t: nat) {
    && t in w.store.inbox && x.store.inbox.Keys == w.store.inbox.Keys
    && (forall u | u in w.store.inbox && u != t :: SameTask(w, x, u))
    && InvokedOk(x)
  }

  lemma MovedTouches(w: World, x: World, t: nat, target: TaskState)
    requires InvokedOk(w) && t in w.store.inbox && x.store == Moved(w.store, t, target) && x.invoked == w.invoked
    ensures OnlyTouches(w, x, t)
  {
  }

  lemma ClaimedTouches(w: World, x: World, t: nat)
    requires InvokedOk(w) && Claimable(w.store, t) && t !in w.store.attempts && x.store == Claimed(w.store, t) && x.invoked == w.invoked
    ensures OnlyTouches(w, x, t)
  {
  }

  lemma MarkedTouches(w: World, x: World, t: nat)
    requires InvokedOk(w) && t in w.store.inbox && CanMark(w.store, t) && x.store == Marked(w.store, t) && x.invoked == w.invoked
    ensures OnlyTouches(w, x, t)
  {
  }

  lemma InvokedTouches(w: World, x: World, t: nat)
    requires InvokedOk(w) && t in w.store.inbox && t in w.store.attempts && w.store.attempts[t].invoked && t !in w.invoked
    requires x.store == w.store && x.invoked == w.invoked + [t]
    ensures OnlyTouches(w, x, t)
  {
  }

  lemma FinishedTouches(w: World, x: World, t: nat, target: TaskState, result: nat)
    requires InvokedOk(w) && t in w.store.inbox && x.store == Finished(w.store, t, target, result) && x.invoked == w.invoked
    ensures OnlyTouches(w, x, t)
  {
  }

  lemma NothingTouched(w: World, x: World, t: nat)
    requires InvokedOk(w) && t in w.store.inbox && x.store == w.store && x.invoked == w.invoked
    ensures OnlyTouches(w, x, t) && SameTask(w, x, t)
  {
  }

  /** A runner took a step, or is gone, and only its own task changed; nobody else was executing it. */
  lemma OneRunnerMoves(w: World, x: World, runner: nat)
    requires RunnersOk(w) && runner in w.runners && OnlyTouches(w, x, w.runners[runner].task)
    requires x.runners.Keys == w.runners.Keys || x.runners.Keys == w.runners.Keys - {runner}
    requires forall a | a in x.runners && a != runner :: x.runners[a] == w.runners[a]
    requires SameTask(w, x, w.runners[runner].task)
             || forall a | a in w.runners && a != runner && w.runners[a].task == w.runners[runner].task :: w.runners[a].pc.Fetched?
    requires runner in x.runners ==>
               && x.runners[runner].task == w.runners[runner].task && RunnerOk(x, x.runners[runner])
               && (w.runners[runner].pc.Fetched? && !x.runners[runner].pc.Fetched? ==>
                     forall a | a in w.runners && a != runner && w.runners[a].task == w.runners[runner].task :: w.runners[a].pc.Fetched?)
    ensures RunnersOk(x)
  {
    hide InvokedOk;
    forall a | a in x.runners ensures RunnerOk(x, x.runners[a]) {
      if a != runner {
        assert RunnerOk(w, w.runners[a]);
        if w.runners[a].task != w.runners[runner].task || SameTask(w, x, w.runners[a].task) {
          RunnerFrame(w, x, w.runners[a]);
        }
      }
    }
    hide RunnerOk, SameTask;
  }

  /** While a runner executes a task, every other runner of that task is still before the claim. */
  lemma OthersFetched(w: World, runner: nat)
    requires RunnersOk(w) && runner in w.runners && !w.runners[runner].pc.Fetched?
    ensures forall a | a in w.runners && a != runner && w.runners[a].task == w.runners[runner].task :: w.runners[a].pc.Fetched?
  {
  }

  /** Nobody executes a queued task. */
  lemma QueuedUnowned(w: World, t: nat)
    requires StoreOk(w.store) && RunnersOk(w) && t in w.store.inbox && w.store.inbox[t].state.Queued?
    ensures forall a | a in w.runners && w.runners[a].task == t :: w.runners[a].pc.Fetched?
    ensures t !in w.store.attempts
  {
    assert RowOk(w.store, t);
    forall a | a in w.runners && w.runners[a].task == t ensures w.runners[a].pc.Fetched? {
      assert RunnerOk(w, w.runners[a]);
    }
  }

  lemma FetchedStep(w: World, runner: nat, c: Choice)
    requires WorldInv(w) && Possible(w, Work(runner, c)) && w.runners[runner].pc.Fetched?
    ensures WorldInv(Ran(w, runner, c))
  {
    var t, x := w.runners[runner].task, Ran(w, runner, c);
    assert RunnerOk(w, w.runners[runner]);
    hide StoreOk, RunnersOk, InvokedOk, SameTask;
    if x.store == w.store {
      NothingTouched(w, x, t);
    } else {
      QueuedUnowned(w, t);
      if c.refused.Some? {
        MoveKeepsStore(w.store, t, c.refused.value);
        MovedTouches(w, x, t, c.refused.value);
      } else {
        ClaimKeepsStore(w.store, t);
        ClaimedTouches(w, x, t);
        NeverInvoked(w, t);
      }
    }
    ReleaseTouches(w, x, t);
    hide OnlyTouches;
    OneRunnerMoves(w, x, runner);
  }

  lemma ReleaseTouches(w: World, x: World, t: nat)
    requires OnlyTouches(w, x, t)
    ensures InvokedOk(x) && x.store.inbox.Keys == w.store.inbox.Keys
  {
  }

  lemma NeverInvoked(w: World, t: nat)
    requires InvokedOk(w) && t !in w.store.attempts
    ensures t !in w.invoked
  {
  }

  /** A runner whose next step fails is gone, and nothing else changes. */
  lemma RunnerGone(w: World, runner: nat)
    requires WorldInv(w)
    ensures WorldInv(w.(runners := w.runners - {runner}))
  {
    hide WorldInv;
    FewerRunners(w, w.(runners := w.runners - {runner}));
  }

  /** A runner in the middle of an execution goes on, with or without moving the stored state. */
  lemma RunnerGoesOn(w: World, x: World, runner: nat, next: Runner)
    requires WorldInv(w) && runner in w.runners && !w.runners[runner].pc.Fetched?
    requires next.task == w.runners[runner].task && !next.pc.Fetched? && RunnerOk(x, next)
    requires x.runners == w.runners[runner := next] && StoreOk(x.store) && OnlyTouches(w, x, next.task)
    ensures WorldInv(x)
  {
    hide StoreOk, RunnersOk, InvokedOk, RunnerOk, SameTask;
    OthersFetched(w, runner);
    ReleaseTouches(w, x, next.task);
    hide OnlyTouches;
    OneRunnerMoves(w, x, runner);
  }

  lemma MovesOn(w: World, runner: nat, target: TaskState, next: Runner)
    requires WorldInv(w) && runner in w.runners && !w.runners[runner].pc.Fetched?
    requires next.task == w.runners[runner].task && next.task in w.store.inbox && Harmless(w.store.inbox[next.task].state, target)
    requires !next.pc.Fetched? && RunnerOk(w.(store := Moved(w.store, next.task, target)), next)
    ensures WorldInv(w.(store := Moved(w.store, next.task, target), runners := w.runners[runner := next]))
  {
    hide StoreOk, RunnersOk, InvokedOk, SameTask;
    var x := w.(store := Moved(w.store, next.task, target), runners := w.runners[runner := next]);
    MoveKeepsStore(w.store, next.task, target);
    MovedTouches(w, x, next.task, target);
    assert RunnerOk(x, next);
    hide RunnerOk, OnlyTouches;
    RunnerGoesOn(w, x, runner, next);
  }

  lemma StateStep(w: World, runner: nat, c: Choice)
    requires WorldInv(w) && Possible(w, Work(runner, c))
    requires w.runners[runner].pc.HasClaim? || w.runners[runner].pc.Interrupting? || w.runners[runner].pc.AfterExecute?
    ensures WorldInv(Ran(w, runner, c))
  {
    var r, x := w.runners[runner], Ran(w, runner, c);
    assert RunnerOk(w, r);
    hide StoreOk, RunnersOk, InvokedOk, WorldInv;
    if runner !in x.runners {
      RunnerGone(w, runner);
    } else if r.pc.HasClaim? {
      MovesOn(w, runner, Running, r.(pc := Started));
    } else if r.pc.Interrupting? {
      MovesOn(w, runner, CancelRequested, r.(pc := AfterExecute(r.pc.final)));
    } else {
      MovesOn(w, runner, CleaningUp, r.(pc := Cleaning(r.pc.final)));
    }
  }

  lemma MarkedRunner(w: World, r: Runner)
    requires RunnerOk(w, r) && r.pc.Started?
    ensures CanMark(w.store, r.task) && r.task in w.store.inbox
    ensures RunnerOk(w.(store := Marked(w.store, r.task)), r.(pc := MarkedInvoked))
  {
  }

  lemma SameRunner(w: World, x: World, r: Runner)
    requires RunnerOk(w, r) && x.store == w.store && x.invoked == w.invoked
    ensures RunnerOk(x, r)
  {
  }

  lemma MarkStep(w: World, runner: nat, c: Choice)
    requires WorldInv(w) && Possible(w, Work(runner, c)) && w.runners[runner].pc.Started?
    ensures WorldInv(Ran(w, runner, c))
  {
    hide StoreOk, RunnersOk, InvokedOk, SameTask, RunnerOk, OnlyTouches;
    var r, x := w.runners[runner], Ran(w, runner, c);
    assert RunnerOk(w, r) by { RunnerIsOk(w, runner); }
    var next := r.(pc := MarkedInvoked);
    MarkedRunner(w, r);
    MarkKeepsStore(w.store, r.task);
    MarkedTouches(w, x, r.task);
    SameRunner(w.(store := Marked(w.store, r.task)), x, next);
    RunnerGoesOn(w, x, runner, next);
  }

  lemma RunnerIsOk(w: World, runner: nat)
    requires RunnersOk(w) && runner in w.runners
    ensures RunnerOk(w, w.runners[runner])
  {
  }

  lemma InvokeStep(w: World, runner: nat, c: Choice)
    requires WorldInv(w) && Possible(w, Work(runner, c)) && w.runners[runner].pc.MarkedInvoked?
    ensures WorldInv(Ran(w, runner, c))
  {
    var r, x := w.runners[runner], Ran(w, runner, c);
    assert RunnerOk(w, r);
    var next := r.(pc := Executing);
    hide StoreOk, RunnersOk, InvokedOk, SameTask;
    InvokedTouches(w, x, r.task);
    assert RunnerOk(x, next);
    hide RunnerOk, OnlyTouches;
    RunnerGoesOn(w, x, runner, next);
  }

  lemma LocalRunner(w: World, runner: nat, c: Choice)
    requires runner in w.runners && RunnerOk(w, w.runners[runner]) && (w.runners[runner].pc.Executing? || w.runners[runner].pc.Cleaning?)
    ensures var x := Ran(w, runner, c);
            && x.store == w.store && x.invoked == w.invoked && runner in x.runners && x.runners == w.runners[runner := x.runners[runner]]
            && x.runners[runner].task == w.runners[runner].task && !x.runners[runner].pc.Fetched? && RunnerOk(w, x.runners[runner])
  {
  }

  lemma LocalStep(w: World, runner: nat, c: Choice)
    requires WorldInv(w) && Possible(w, Work(runner, c)) && (w.runners[runner].pc.Executing? || w.runners[runner].pc.Cleaning?)
    ensures WorldInv(Ran(w, runner, c))
  {
    hide StoreOk, RunnersOk, InvokedOk, SameTask, RunnerOk, OnlyTouches, Ran;
    var x := Ran(w, runner, c);
    RunnerIsOk(w, runner);
    LocalRunner(w, runner, c);
    InInbox(w, w.runners[runner]);
    NothingTouched(w, x, w.runners[runner].task);
    SameRunner(w, x, x.runners[runner]);
    RunnerGoesOn(w, x, runner, x.runners[runner]);
  }

  lemma InInbox(w: World, r: Runner)
    requires RunnerOk(w, r)
    ensures r.task in w.store.inbox
  {
  }

  lemma FinishStep(w: World, runner: nat, c: Choice)
    requires WorldInv(w) && Possible(w, Work(runner, c)) && w.runners[runner].pc.Finishing?
    ensures WorldInv(Ran(w, runner, c))
  {
    var r, x := w.runners[runner], Ran(w, runner, c);
    assert RunnerOk(w, r);
    var final := r.pc.final;
    assert x == w.(store := Finished(w.store, r.task, final, c.result), runners := w.runners - {runner});
    hide StoreOk, RunnersOk, InvokedOk, SameTask, Finished, RunnerOk, Ran;
    OthersFetched(w, runner);
    FinishKeepsStore(w.store, r.task, final, c.result);
    FinishedTouches(w, x, r.task, final, c.result);
    ReleaseTouches(w, x, r.task);
    hide OnlyTouches;
    OneRunnerMoves(w, x, runner);
  }

  lemma WorkKeepsInv(w: World, runner: nat, c: Choice)
    requires WorldInv(w) && Possible(w, Work(runner, c))
    ensures WorldInv(Ran(w, runner, c))
  {
    hide WorldInv, Ran;
    match w.runners[runner].pc
    case Fetched => FetchedStep(w, runner, c);
    case HasClaim => StateStep(w, runner, c);
    case Started => MarkStep(w, runner, c);
    case MarkedInvoked => InvokeStep(w, runner, c);
    case Executing => LocalStep(w, runner, c);
    case Interrupting(_) => StateStep(w, runner, c);
    case AfterExecute(_) => StateStep(w, runner, c);
    case Cleaning(_) => LocalStep(w, runner, c);
    case Finishing(_) => FinishStep(w, runner, c);
  }

  /** A change of the store that no runner in the middle of an execution can see. */
  ghost predicate Unseen(s: Tables, x: Tables) {
    && s.inbox.Keys <= x.inbox.Keys && x.attempts == s.attempts
    && (forall u | u in s.attempts && u in s.inbox :: x.inbox[u].state == s.inbox[u].state)
  }

  lemma StoreChange(w: World, x: World)
    requires WorldInv(w) && StoreOk(x.store) && x == w.(store := x.store) && Unseen(w.store, x.store)
    ensures WorldInv(x)
  {
    hide StoreOk;
    forall a | a in x.runners ensures RunnerOk(x, x.runners[a]) {
      assert RunnerOk(w, w.runners[a]);
      UnseenRunner(w, x, w.runners[a]);
    }
    hide RunnerOk;
  }

  lemma UnseenRunner(w: World, x: World, r: Runner)
    requires RunnerOk(w, r) && x == w.(store := x.store) && Unseen(w.store, x.store)
    ensures RunnerOk(x, r)
  {
  }

  lemma IngestKeepsInv(w: World, task: Task)
    requires WorldInv(w)
    ensures WorldInv(Next(w, Ingest(task)))
  {
    hide StoreOk, RunnersOk, InvokedOk;
    IngestKeepsStore(w.store, task);
    assert Unseen(w.store, Ingested(w.store, task).0);
    hide Ingested;
    StoreChange(w, Next(w, Ingest(task)));
  }

  lemma RejectKeepsInv(w: World, t: nat)
    requires WorldInv(w)
    ensures WorldInv(Next(w, RejectCorrupt(t)))
  {
    hide StoreOk, RunnersOk, InvokedOk;
    if CanMove(w.store, t, Queued, Rejected) {
      MoveKeepsStore(w.store, t, Rejected);
      QueuedUnowned(w, t);
      assert Unseen(w.store, Moved(w.store, t, Rejected));
      StoreChange(w, Next(w, RejectCorrupt(t)));
    }
  }

  lemma FewerRunners(w: World, x: World)
    requires WorldInv(w) && x == w.(runners := x.runners)
    requires forall a | a in x.runners ::
               || (a in w.runners && x.runners[a] == w.runners[a].(token := x.runners[a].token))
               || (a !in w.runners && x.runners[a].pc.Fetched? && x.runners[a].task in w.store.inbox)
    ensures WorldInv(x)
  {
    forall a | a in x.runners ensures RunnerOk(x, x.runners[a]) {
      if a in w.runners {
        assert RunnerOk(w, w.runners[a]);
      }
    }
    hide RunnerOk, StoreOk;
  }

  lemma RestartKeepsInv(w: World)
    requires WorldInv(w)
    ensures WorldInv(Next(w, Restart))
  {
    RecoverKeepsStore(w.store);
    hide StoreOk;
  }

  /** Every event keeps the invariant. */
  lemma NextKeepsInv(w: World, e: Event)
    requires WorldInv(w) && Possible(w, e)
    ensures WorldInv(Next(w, e))
  {
    match e
    case Work(runner, choice) =>
      hide WorldInv, Ran;
      WorkKeepsInv(w, runner, choice);
    case Ingest(task) => hide WorldInv; IngestKeepsInv(w, task);
    case RejectCorrupt(t) => hide WorldInv; RejectKeepsInv(w, t);
    case Restart => hide WorldInv; RestartKeepsInv(w);
    case _ => hide WorldInv; FewerRunners(w, Next(w, e));
  }

  lemma {:induction false} PlayKeepsInv(w: World, events: seq<Event>)
    requires WorldInv(w) && PossibleRun(w, events)
    ensures WorldInv(Play(w, events))
    decreases |events|
  {
    hide WorldInv, Next, Possible;
    if events != [] {
      NextKeepsInv(w, events[0]);
      PlayKeepsInv(Next(w, events[0]), events[1..]);
    }
  }

  ghost predicate Reached(w: World) {
    exists events :: PossibleRun(BEGIN, events) && Play(BEGIN, events) == w
  }

  lemma ReachedInv(w: World)
    requires Reached(w)
    ensures WorldInv(w)
  {
    hide WorldInv, Next, Possible;
    var events :| PossibleRun(BEGIN, events) && Play(BEGIN, events) == w;
    BeginInv();
    PlayKeepsInv(BEGIN, events);
  }

  /* What follows. */

  /** However ingests, claims, runners, crashes and restarts interleave: what is executed was ingested,
      and of all the tasks that share an idempotency key only the canonical one is ever attempted or
      executed, and it is executed at most once. */
  lemma AtMostOnce(w: World, i: nat, j: nat)
    requires Reached(w) && i < |w.invoked| && j < |w.invoked|
    ensures w.invoked[i] in w.store.inbox && w.invoked[j] in w.store.inbox
    ensures w.invoked[i] in w.store.attempts && w.store.attempts[w.invoked[i]].invoked
    ensures w.store.inbox[w.invoked[i]].key == w.store.inbox[w.invoked[j]].key ==> i == j
    ensures var key := w.store.inbox[w.invoked[i]].key; key in w.store.effects && w.store.effects[key].canonical == w.invoked[i]
  {
    ReachedInv(w);
    assert RowOk(w.store, w.invoked[i]) && RowOk(w.store, w.invoked[j]);
  }

  lemma OneAttemptPerKey(w: World, t: nat, u: nat)
    requires Reached(w) && t in w.store.attempts && u in w.store.attempts
    ensures t in w.store.inbox && u in w.store.inbox
    ensures w.store.inbox[t].key == w.store.inbox[u].key ==> t == u
  {
    ReachedInv(w);
    assert RowOk(w.store, t) && RowOk(w.store, u);
  }

  /** A task is completed, failed or cancelled exactly when it has one result in the outbox; then its
      key's effect records that state and that result. */
  lemma ResultIffFinished(w: World, t: nat)
    requires Reached(w) && t in w.store.inbox
    ensures WithResult(w.store.inbox[t].state) <==> exists r :: r in w.store.results && w.store.results[r] == t
    ensures forall q, r | q in w.store.results && r in w.store.results && w.store.results[q] == t && w.store.results[r] == t :: q == r
    ensures forall r | r in w.store.results && w.store.results[r] == t ::
              var key := w.store.inbox[t].key;
              key in w.store.effects && w.store.effects[key].terminal == Some((w.store.inbox[t].state, r))
  {
    ReachedInv(w);
    assert RowOk(w.store, t);
    var effect := w.store.effects[w.store.inbox[t].key];
    if WithResult(w.store.inbox[t].state) {
      assert effect.terminal.value.1 in w.store.results && w.store.results[effect.terminal.value.1] == t;
    }
  }

  /** Every change of a task's state is an allowed transition, or a restart turning an unfinished state
      into `interrupted`; new tasks enter as queued, duplicate or blocked. */
  lemma OnlyAllowedEdges(w: World, e: Event, t: nat)
    requires WorldInv(w) && Possible(w, e) && t in Next(w, e).store.inbox
    ensures if t !in w.store.inbox then
              var state := Next(w, e).store.inbox[t].state; state.Queued? || state.Duplicate? || state.Blocked?
            else
              var before, after := w.store.inbox[t].state, Next(w, e).store.inbox[t].state;
              after == before || Allowed(before, after) || (e.Restart? && Unfinished(before) && after.Interrupted?)
  {
    hide WorldInv, Ran;
    if e.Work? {
      WorkEdges(w, e.runner, e.choice, t);
    }
  }

  lemma WorkEdges(w: World, runner: nat, c: Choice, t: nat)
    requires runner in w.runners && (c.refused.Some? ==> c.refused.value.Skipped? || c.refused.value.Blocked? || c.refused.value.Rejected?)
    ensures Ran(w, runner, c).store.inbox.Keys == w.store.inbox.Keys
    ensures t in w.store.inbox ==>
              var before, after := w.store.inbox[t].state, Ran(w, runner, c).store.inbox[t].state;
              after == before || Allowed(before, after)
  {
    assert Allowed(Queued, Preparing);
    hide Allowed;
  }

  lemma WorkLeavesTerminal(w: World, runner: nat, c: Choice, t: nat)
    requires runner in w.runners && t in w.store.inbox
    requires c.refused.Some? ==> c.refused.value.Skipped? || c.refused.value.Blocked? || c.refused.value.Rejected?
    ensures t in Ran(w, runner, c).store.inbox
    ensures Terminal(w.store.inbox[t].state) ==> Ran(w, runner, c).store.inbox[t].state == w.store.inbox[t].state
  {
    var store := Ran(w, runner, c).store;
    assert store.inbox.Keys == w.store.inbox.Keys;
  }

  lemma TasksStay(w: World, e: Event, t: nat)
    requires Possible(w, e) && t in w.store.inbox
    ensures t in Next(w, e).store.inbox
    ensures Terminal(w.store.inbox[t].state) ==> Next(w, e).store.inbox[t].state == w.store.inbox[t].state
  {
    hide Ran;
    if e.Work? {
      WorkLeavesTerminal(w, e.runner, e.choice, t);
    }
  }

  /** Terminal states are absorbing. */
  lemma {:induction false} TerminalForever(w: World, events: seq<Event>, t: nat)
    requires PossibleRun(w, events) && t in w.store.inbox && Terminal(w.store.inbox[t].state)
    ensures t in Play(w, events).store.inbox && Play(w, events).store.inbox[t].state == w.store.inbox[t].state
    decreases |events|
  {
    hide Next, Possible, Terminal;
    if events != [] {
      TasksStay(w, events[0], t);
      TerminalForever(Next(w, events[0]), events[1..], t);
    }
  }

  /* What becomes of later tasks with a key that is taken. */

  /** Every later task of a key is a duplicate if it asks for the effect of the first, and blocked if it asks
      for another. */
  ghost predicate LatersOk(s: Tables) {
    forall t | t in s.inbox && s.inbox[t].key in s.effects && s.effects[s.inbox[t].key].canonical != t ::
      s.inbox[t].state == if s.inbox[t].effect == s.effects[s.inbox[t].key].hash then Duplicate else Blocked
  }

  /** An event leaves keys, effects and canonical tasks as they are, but for what it ingests. */
  lemma IdentityStays(w: World, e: Event, t: nat)
    requires Possible(w, e) && !e.Ingest?
    ensures t in Next(w, e).store.inbox <==> t in w.store.inbox
    ensures t in w.store.inbox ==>
              && Next(w, e).store.inbox[t].key == w.store.inbox[t].key && Next(w, e).store.inbox[t].effect == w.store.inbox[t].effect
    ensures Next(w, e).store.effects.Keys == w.store.effects.Keys
    ensures forall k | k in w.store.effects ::
              Next(w, e).store.effects[k].hash == w.store.effects[k].hash && Next(w, e).store.effects[k].canonical == w.store.effects[k].canonical
  {
    if e.Work? {
      WorkKeepsTask(w, e.runner, e.choice, t);
      WorkKeepsEffects(w, e.runner, e.choice);
      hide Ran;
    }
  }

  lemma WorkKeepsTask(w: World, runner: nat, c: Choice, t: nat)
    requires runner in w.runners
    ensures var x := Ran(w, runner, c).store;
            && (t in x.inbox <==> t in w.store.inbox)
            && (t in w.store.inbox ==> x.inbox[t].key == w.store.inbox[t].key && x.inbox[t].effect == w.store.inbox[t].effect)
  {
    hide Allowed;
  }

  lemma WorkKeepsEffects(w: World, runner: nat, c: Choice)
    requires runner in w.runners
    ensures var x := Ran(w, runner, c).store;
            && x.effects.Keys == w.store.effects.Keys
            && (forall k | k in w.store.effects :: x.effects[k].hash == w.store.effects[k].hash && x.effects[k].canonical == w.store.effects[k].canonical)
  {
    hide Allowed;
  }

  lemma NextKeepsLaters(w: World, e: Event)
    requires WorldInv(w) && Possible(w, e) && LatersOk(w.store)
    ensures LatersOk(Next(w, e).store)
  {
    var x := Next(w, e).store;
    if e.Ingest? {
      IngestKeepsLaters(w.store, e.task);
    } else {
      forall t | t in x.inbox && x.inbox[t].key in x.effects && x.effects[x.inbox[t].key].canonical != t
        ensures x.inbox[t].state == if x.inbox[t].effect == x.effects[x.inbox[t].key].hash then Duplicate else Blocked
      {
        IdentityStays(w, e, t);
        TasksStay(w, e, t);
        hide Next, WorldInv;
      }
    }
  }

  lemma IngestKeepsLaters(s: Tables, task: Task)
    requires StoreOk(s) && LatersOk(s)
    ensures LatersOk(Ingested(s, task).0)
  {
    assert forall t | t in s.inbox :: RowOk(s, t);
    hide StoreOk, RowOk;
    assert forall t | t in s.inbox :: s.inbox[t].key in s.effects by {
      forall t | t in s.inbox ensures s.inbox[t].key in s.effects {
        KeyKnown(s, t);
      }
    }
  }

  lemma KeyKnown(s: Tables, t: nat)
    requires t in s.inbox && RowOk(s, t)
    ensures s.inbox[t].key in s.effects
  {
  }

  lemma {:induction false} PlayKeepsLaters(w: World, events: seq<Event>)
    requires WorldInv(w) && LatersOk(w.store) && PossibleRun(w, events)
    ensures LatersOk(Play(w, events).store)
    decreases |events|
  {
    hide WorldInv, Next, Possible, LatersOk;
    if events != [] {
      NextKeepsInv(w, events[0]);
      NextKeepsLaters(w, events[0]);
      PlayKeepsLaters(Next(w, events[0]), events[1..]);
    }
  }

  /** In every reached world the tasks of one key, but for the one that may be executed, are duplicates of it
      exactly if they ask for the same effect, and blocked exactly if they ask for another. */
  lemma LaterTasks(w: World, t: nat)
    requires Reached(w) && t in w.store.inbox
    ensures w.store.inbox[t].key in w.store.effects
    ensures var first := w.store.effects[w.store.inbox[t].key].canonical;
            && first in w.store.inbox && w.store.inbox[first].key == w.store.inbox[t].key
            && (t != first ==>
                  w.store.inbox[t].state == if w.store.inbox[t].effect == w.store.inbox[first].effect then Duplicate else Blocked)
  {
    ReachedInv(w);
    assert RowOk(w.store, t);
    hide WorldInv, Next, Possible;
    var events :| PossibleRun(BEGIN, events) && Play(BEGIN, events) == w;
    BeginInv();
    assert LatersOk(BEGIN.store);
    PlayKeepsLaters(BEGIN, events);
  }

  /** A task that comes again is recognised by its whole payload; a first one is queued if and only if its
      key is new. */
  lemma IngestAnswers(s: Tables, task: Task, again: Task)
    requires task.id !in s.inbox && again.id == task.id
    ensures Ingested(s, task).1.Answered? && (Ingested(s, task).1.state.Queued? <==> task.key !in s.effects)
    ensures var t := Ingested(s, task).0;
            Ingested(t, again) == (t, if again.payload == task.payload then AlreadyIngested else TaskIdConflict)
  {
  }

  /* The transition table. */

  /** A state is terminal exactly if the table has no way out of it. */
  lemma TerminalIffNoWayOut(state: TaskState)
    ensures Terminal(state) <==> forall target :: !Allowed(state, target)
  {
    match state
    case Received => assert Allowed(state, Queued);
    case Queued => assert Allowed(state, Preparing);
    case Preparing => assert Allowed(state, Running);
    case Running => assert Allowed(state, CleaningUp);
    case CancelRequested => assert Allowed(state, CleaningUp);
    case CleaningUp => assert Allowed(state, Completed);
    case _ =>
  }

  /** A restart finds exactly the states between queued and terminal unfinished. */
  lemma UnfinishedIffBetween(state: TaskState)
    ensures Unfinished(state) <==> !Terminal(state) && !state.Received? && !state.Queued?
  {
  }

  /** A runner whose checks refuse a queued task moves it out of the queue as it was told, and executes
      nothing; any other it leaves alone. */
  lemma RefusalMoves(w: World, runner: nat, c: Choice)
    requires Possible(w, Work(runner, c)) && w.runners[runner].pc.Fetched? && c.refused.Some?
    ensures var x, t := Next(w, Work(runner, c)), w.runners[runner].task;
            && runner !in x.runners && x.invoked == w.invoked
            && (t in w.store.inbox && w.store.inbox[t].state.Queued? ==>
                  x.store == w.store.(inbox := w.store.inbox[t := w.store.inbox[t].(state := c.refused.value)]))
            && (t in w.store.inbox && !w.store.inbox[t].state.Queued? ==> x.store == w.store)
  {
  }

  /** A queued task nobody refuses is claimed, and its key's effect with it; in order, every queued task is
      claimable. */
  lemma QueuedIsClaimed(w: World, runner: nat, c: Choice)
    requires WorldInv(w) && Possible(w, Work(runner, c)) && w.runners[runner].pc.Fetched? && c.refused.None?
    requires w.runners[runner].task in w.store.inbox
    ensures var x, t := Next(w, Work(runner, c)), w.runners[runner].task;
            if w.store.inbox[t].state.Queued? then
              && runner in x.runners && x.runners[runner].pc.HasClaim? && x.store.inbox[t].state.Preparing?
              && t in x.store.attempts && !x.store.attempts[t].invoked && !x.store.attempts[t].finished
              && x.store.effects[w.store.inbox[t].key].claimed
            else
              x == w.(runners := w.runners - {runner})
  {
    assert RowOk(w.store, w.runners[runner].task);
    hide WorldInv;
  }
}
