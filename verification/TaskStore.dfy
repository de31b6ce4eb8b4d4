/** The desktop agent's task tables and the transactions on them. */
module TaskStore {
  import opened Options

  datatype TaskState =
    | Received | Duplicate | Skipped | Blocked | Rejected | Queued | Preparing | Running
    | CancelRequested | CleaningUp | Completed | Failed | Cancelled | Interrupted

  predicate PreExecutionTerminal(state: TaskState) {
    state.Duplicate? || state.Skipped? || state.Blocked? || state.Rejected?
  }

  predicate ExecutionTerminal(state: TaskState) {
    state.Completed? || state.Failed? || state.Cancelled? || state.Interrupted?
  }

  predicate Terminal(state: TaskState) {
    PreExecutionTerminal(state) || ExecutionTerminal(state)
  }

  /** ALLOWED_TRANSITIONS */
  predicate Allowed(current: TaskState, target: TaskState) {
    match current
    case Received => PreExecutionTerminal(target) || target.Queued?
    case Queued => target.Preparing? || target.CancelRequested? || target.Skipped? || target.Blocked? || target.Rejected?
    case Preparing => target.Running? || target.CancelRequested? || target.Failed? || target.Interrupted?
    case Running => target.CancelRequested? || target.CleaningUp? || target.Interrupted?
    case CancelRequested => target.CleaningUp?
    case CleaningUp => ExecutionTerminal(target)
    case _ => false
  }

  /** The states a restart finds unfinished and turns into `interrupted`. */
  predicate Unfinished(state: TaskState) {
    state.Preparing? || state.Running? || state.CancelRequested? || state.CleaningUp?
  }

  /** A task envelope: its key, the hash of its logical effect and the hash of its whole payload. */
  datatype Task = Task(id: nat, key: nat, effect: nat, payload: nat)

  datatype Row = Row(key: nat, effect: nat, payload: nat, state: TaskState)

  datatype Effect = Effect(hash: nat, canonical: nat, claimed: bool, terminal: Option<(TaskState, nat)>)

  datatype Attempt = Attempt(invoked: bool, finished: bool, cleanupRequested: bool)

  /** inbox_tasks, idempotency_effects, task_attempts by task, and outbox_results by result. */
  datatype Tables = Tables(inbox: map<nat, Row>, effects: map<nat, Effect>, attempts: map<nat, Attempt>, results: map<nat, nat>)

  const NO_TASKS: Tables := Tables(map[], map[], map[], map[])

  datatype Answer = TaskIdConflict | AlreadyIngested | Answered(state: TaskState)

  function Ingested(s: Tables, task: Task): (answer: (Tables, Answer)) {
    if task.id in s.inbox then (s, if s.inbox[task.id].payload != task.payload then TaskIdConflict else AlreadyIngested)
    else if task.key in s.effects then
      var state := if s.effects[task.key].hash == task.effect then Duplicate else Blocked;
      (s.(inbox := s.inbox[task.id := Row(task.key, task.effect, task.payload, state)]), Answered(state))
    else
      (s.(inbox := s.inbox[task.id := Row(task.key, task.effect, task.payload, Queued)],
          effects := s.effects[task.key := Effect(task.effect, task.id, false, None)]),
       Answered(Queued))
  }

  predicate Claimable(s: Tables, t: nat) {
    t in s.inbox && s.inbox[t].state == Queued && s.inbox[t].key in s.effects && !s.effects[s.inbox[t].key].claimed
  }

  function Claimed(s: Tables, t: nat): (after: Tables)
    requires Claimable(s, t)
  {
    var key := s.inbox[t].key;
    s.(inbox := s.inbox[t := s.inbox[t].(state := Preparing)],
       effects := s.effects[key := s.effects[key].(claimed := true)],
       attempts := s.attempts[t := Attempt(false, false, false)])
  }

  /** ensure_transition and the compare-and-set of the stored state. */
  predicate CanMove(s: Tables, t: nat, current: TaskState, target: TaskState) {
    Allowed(current, target) && t in s.inbox && s.inbox[t].state == current
  }

  function Moved(s: Tables, t: nat, target: TaskState): (after: Tables)
    requires t in s.inbox
  {
    s.(inbox := s.inbox[t := s.inbox[t].(state := target)])
  }

  predicate CanMark(s: Tables, t: nat) {
    t in s.attempts && !s.attempts[t].invoked
  }

  function Marked(s: Tables, t: nat): (after: Tables)
    requires CanMark(s, t)
  {
    s.(attempts := s.attempts[t := s.attempts[t].(invoked := true)])
  }

  /** The four statements of finish_with_result, for a fresh result identifier. */
  function Finished(s: Tables, t: nat, target: TaskState, result: nat): (after: Tables)
    requires t in s.inbox
  {
    var key := s.inbox[t].key;
    Moved(s, t, target).(
      results := s.results[result := t],
      effects := if key in s.effects then s.effects[key := s.effects[key].(terminal := Some((target, result)))] else s.effects,
      attempts := if t in s.attempts then s.attempts[t := s.attempts[t].(finished := true)] else s.attempts)
  }

  /** recover_interrupted */
  function Recovered(s: Tables): (after: Tables) {
    s.(inbox := map t | t in s.inbox :: if Unfinished(s.inbox[t].state) then s.inbox[t].(state := Interrupted) else s.inbox[t],
       attempts := map t | t in s.attempts ::
         if t in s.inbox && Unfinished(s.inbox[t].state) then s.attempts[t].(finished := true, cleanupRequested := true) else s.attempts[t])
  }

  /** The store itself: each method is one transaction. */
  class SQLiteStore {
    var inbox: map<nat, Row>
    var effects: map<nat, Effect>
    var attempts: map<nat, Attempt>
    var results: map<nat, nat>

    function Now(): Tables
      reads this
    {
      Tables(inbox, effects, attempts, results)
    }

    constructor ()
      ensures Now() == NO_TASKS
    {
      inbox, effects, attempts, results := map[], map[], map[], map[];
    }

    method IngestTask(task: Task) returns (answer: Answer)
      modifies this
      ensures (Now(), answer) == Ingested(old(Now()), task)
    {
      if task.id in inbox {
        if inbox[task.id].payload != task.payload {
          return TaskIdConflict;
        }
        return AlreadyIngested;
      }
      if task.key in effects {
        var state := if effects[task.key].hash == task.effect then Duplicate else Blocked;
        inbox := inbox[task.id := Row(task.key, task.effect, task.payload, state)];
        return Answered(state);
      }
      inbox := inbox[task.id := Row(task.key, task.effect, task.payload, Received)];
      effects := effects[task.key := Effect(task.effect, task.id, false, None)];
      inbox := inbox[task.id := inbox[task.id].(state := Queued)];
      assert inbox == old(inbox)[task.id := Row(task.key, task.effect, task.payload, Queued)];
      return Answered(Queued);
    }

    method ClaimTask(t: nat) returns (claimed: bool)
      modifies this
      ensures claimed <==> Claimable(old(Now()), t)
      ensures claimed <==> t in old(inbox) && old(inbox)[t].state.Queued? && old(inbox)[t].key in old(effects) && !old(effects)[old(inbox)[t].key].claimed
      ensures Now() == if claimed then Claimed(old(Now()), t) else old(Now())
    {
      if t !in inbox || inbox[t].state != Queued {
        return false;
      }
      var key := inbox[t].key;
      if key !in effects || effects[key].claimed {
        return false;
      }
      effects := effects[key := effects[key].(claimed := true)];
      inbox := inbox[t := inbox[t].(state := Preparing)];
      attempts := attempts[t := Attempt(false, false, false)];
      return true;
    }

    /** Moves the state, or raises and changes nothing. */
    method Transition(t: nat, current: TaskState, target: TaskState) returns (moved: bool)
      modifies `inbox
      ensures moved <==> CanMove(old(Now()), t, current, target)
      ensures Now() == if moved then Moved(old(Now()), t, target) else old(Now())
    {
      if !Allowed(current, target) {
        return false;
      }
      if t !in inbox || inbox[t].state != current {
        return false;
      }
      inbox := inbox[t := inbox[t].(state := target)];
      return true;
    }

    method MarkInvoked(t: nat) returns (marked: bool)
      modifies `attempts
      ensures marked <==> CanMark(old(Now()), t)
      ensures Now() == if marked then Marked(old(Now()), t) else old(Now())
    {
      if t !in attempts || attempts[t].invoked {
        return false;
      }
      attempts := attempts[t := attempts[t].(invoked := true)];
      return true;
    }

    method FinishWithResult(t: nat, current: TaskState, target: TaskState, result: nat) returns (finished: bool)
      modifies this
      ensures finished <==> CanMove(old(Now()), t, current, target)
      ensures Now() == if finished then Finished(old(Now()), t, target, result) else old(Now())
    {
      var moved := Transition(t, current, target);
      if !moved {
        return false;
      }
      var key := inbox[t].key;
      results := results[result := t];
      if key in effects {
        effects := effects[key := effects[key].(terminal := Some((target, result)))];
      }
      if t in attempts {
        attempts := attempts[t := attempts[t].(finished := true)];
      }
      return true;
    }

    method Interrupt(t: nat)
      requires t in inbox
      modifies `inbox, `attempts
      ensures inbox == old(inbox)[t := old(inbox)[t].(state := Interrupted)]
      ensures attempts == if t in old(attempts) then old(attempts)[t := old(attempts)[t].(finished := true, cleanupRequested := true)] else old(attempts)
    {
      inbox := inbox[t := inbox[t].(state := Interrupted)];
      if t in attempts {
        attempts := attempts[t := attempts[t].(finished := true, cleanupRequested := true)];
      }
    }

    /** One transaction over every unfinished row. */
    method RecoverInterrupted() returns (count: nat)
      modifies this
      ensures Now() == Recovered(old(Now()))
      ensures count == |set t | t in old(inbox) && Unfinished(old(inbox)[t].state)|
    {
      ghost var s := Now();
      var left := set t | t in inbox && Unfinished(inbox[t].state);
      ghost var all := left;
      count := |left|;
      while left != {}
        invariant left <= all && inbox.Keys == s.inbox.Keys && attempts.Keys == s.attempts.Keys
        invariant effects == s.effects && results == s.results
        invariant forall t | t in inbox :: inbox[t] == if t in all - left then s.inbox[t].(state := Interrupted) else s.inbox[t]
        invariant forall t | t in attempts ::
                    attempts[t] == if t in all - left then s.attempts[t].(finished := true, cleanupRequested := true) else s.attempts[t]
        decreases left
      {
        var t :| t in left;
        Interrupt(t);
        left := left - {t};
      }
    }
  }
}
